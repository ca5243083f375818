/**
 * The static route binder `initRoutes`: appends the health route, indexes the data
 * factories, then walks the configured routes in order and registers one handler
 * for each route whose factory exists and whose operation is recognised.
 *
 * Two snapshots of the binder exist. `Lib` dispatches on the operation with an
 * if/else-if chain and merges `ctx.request` into the props of create, update and
 * replace; `Src` dispatches with a `switch` whose `default` registers nothing and
 * merges only `ctx.query` and `ctx.params` in every handler.
 */
module Binder {
  import opened Wrappers
  import opened Operations
  import opened Factories
  import opened Router

  datatype Snapshot = Lib | Src

  /** A configured route: serve `url` with the factory of `cls`.`property`. */
  datatype Route = Route(url: string, cls: string, property: string)

  const HealthPath: string := "/mlclhttp/health"

  /** The entry the binder appends before any configured route. */
  const HealthLayer: Layer := Layer(GET, HealthPath, Health)

  /** Whether the handler of `op` merges `ctx.request` after query and params. */
  function MergesRequest(s: Snapshot, op: Operation): bool
  {
    s == Lib && (op == Create || op == Update || op == Replace)
  }

  /** What the operation dispatch appends for factory `f` at `url`: one layer, or none for an unknown operation. */
  function FactoryEntry(s: Snapshot, url: string, f: Factory): (r: seq<Layer>)
    ensures |r| <= 1
    ensures |r| == 1 <==> ParseOperation(f.operation).Some?
  {
    match ParseOperation(f.operation)
    case None => []
    case Some(op) => [Layer(VerbOf(op), url, FactoryHandler(op, f, MergesRequest(s, op)))]
  }

  /** What one configured route contributes to the table: nothing when no factory matches its key. */
  function RouteEntry(s: Snapshot, idx: Index, route: Route): (r: seq<Layer>)
    ensures |r| <= 1
    ensures Lookup(idx, route.cls, route.property).None? ==> r == []
    ensures |r| == 1 <==>
      Lookup(idx, route.cls, route.property).Some? &&
      ParseOperation(Lookup(idx, route.cls, route.property).value.operation).Some?
  {
    match Lookup(idx, route.cls, route.property)
    case None => []
    case Some(f) => FactoryEntry(s, route.url, f)
  }

  /** The layers the configured-route loop appends, in configured-route order; at most one per route. */
  function BoundRoutes(s: Snapshot, idx: Index, routes: seq<Route>): (r: seq<Layer>)
    ensures |r| <= |routes|
  {
    if routes == [] then [] else RouteEntry(s, idx, routes[0]) + BoundRoutes(s, idx, routes[1..])
  }

  /**
   * Every bound layer comes from a configured route: its verb is that of its
   * operation, its operation's token is its factory's, its merge rule is the
   * snapshot's, and its path and factory are those of a configured route whose key
   * the index maps to that factory.
   */
  lemma {:induction false} BoundLayersComeFromRoutes(s: Snapshot, idx: Index, routes: seq<Route>, k: int)
    requires 0 <= k < |BoundRoutes(s, idx, routes)|
    ensures var layer := BoundRoutes(s, idx, routes)[k];
      layer.handler.FactoryHandler? &&
      layer.verb == VerbOf(layer.handler.op) &&
      layer.handler.withRequest == MergesRequest(s, layer.handler.op) &&
      Token(layer.handler.op) == layer.handler.factory.operation &&
      exists i :: 0 <= i < |routes| && routes[i].url == layer.path &&
        Lookup(idx, routes[i].cls, routes[i].property) == Some(layer.handler.factory)
  {
    var head := RouteEntry(s, idx, routes[0]);
    var rest := BoundRoutes(s, idx, routes[1..]);
    assert BoundRoutes(s, idx, routes) == head + rest;
    if k >= |head| {
      BoundLayersComeFromRoutes(s, idx, routes[1..], k - |head|);
      var i :| 0 <= i < |routes[1..]| && routes[1..][i].url == rest[k - |head|].path &&
        Lookup(idx, routes[1..][i].cls, routes[1..][i].property) == Some(rest[k - |head|].handler.factory);
      assert routes[1..][i] == routes[i + 1];
    } else {
      assert routes[0].url == head[k].path;
    }
  }

  /**
   * Every configured route whose key finds a factory with a recognised operation
   * has its layer in the table: the operation's verb, the route's url, and the
   * factory's handler with the snapshot's merge rule.
   */
  lemma {:induction false} MatchedRouteBound(s: Snapshot, idx: Index, routes: seq<Route>, i: int, f: Factory, op: Operation)
    requires 0 <= i < |routes|
    requires Lookup(idx, routes[i].cls, routes[i].property) == Some(f)
    requires ParseOperation(f.operation) == Some(op)
    ensures Layer(VerbOf(op), routes[i].url, FactoryHandler(op, f, MergesRequest(s, op))) in BoundRoutes(s, idx, routes)
  {
    if i > 0 {
      MatchedRouteBound(s, idx, routes[1..], i - 1, f, op);
    }
  }

  /** The table is built route by route: binding `a + b` appends the layers of `a`, then those of `b`. */
  lemma {:induction false} BoundRoutesAppend(s: Snapshot, idx: Index, a: seq<Route>, b: seq<Route>)
    ensures BoundRoutes(s, idx, a + b) == BoundRoutes(s, idx, a) + BoundRoutes(s, idx, b)
  {
    if a == [] {
      assert a + b == b;
    } else {
      assert (a + b)[1..] == a[1..] + b;
      BoundRoutesAppend(s, idx, a[1..], b);
    }
  }

  /** A configured route with no factory for its key adds nothing and raises no error. */
  lemma UnmatchedRouteSkipped(s: Snapshot, idx: Index, routes: seq<Route>, route: Route)
    requires Lookup(idx, route.cls, route.property).None?
    ensures BoundRoutes(s, idx, routes + [route]) == BoundRoutes(s, idx, routes)
  {
    BoundRoutesAppend(s, idx, routes, [route]);
    assert BoundRoutes(s, idx, [route]) == [];
  }

  /** The same layer with a handler that merges only query and params. */
  function WithoutRequestMerge(layer: Layer): Layer
  {
    match layer.handler
    case Health => layer
    case FactoryHandler(op, f, _) => layer.(handler := FactoryHandler(op, f, false))
  }

  /**
   * The two snapshots register the same table: same verbs, paths, operations and
   * factories in the same order. They differ only in the merge rule, and the `Src`
   * handlers never merge `ctx.request`.
   */
  lemma {:induction false} SnapshotsBindSameTable(idx: Index, routes: seq<Route>)
    ensures |BoundRoutes(Lib, idx, routes)| == |BoundRoutes(Src, idx, routes)|
    ensures forall k :: 0 <= k < |BoundRoutes(Src, idx, routes)| ==>
      BoundRoutes(Src, idx, routes)[k] == WithoutRequestMerge(BoundRoutes(Lib, idx, routes)[k])
  {
    if routes != [] {
      SnapshotsBindSameTable(idx, routes[1..]);
      var libHead, srcHead := RouteEntry(Lib, idx, routes[0]), RouteEntry(Src, idx, routes[0]);
      assert |libHead| == |srcHead|;
      assert forall k :: 0 <= k < |srcHead| ==> srcHead[k] == WithoutRequestMerge(libHead[k]);
    }
  }

  /**
   * Operation dispatch of the `Lib` snapshot: an if/else-if chain on the operation
   * token; create, update and replace handlers also merge `ctx.request`.
   */
  method BindLib(router: CoreRouter, url: string, f: Factory)
    modifies router
    ensures router.stack == old(router.stack) + FactoryEntry(Lib, url, f)
  {
    if f.operation == "create" {
      router.Post(url, FactoryHandler(Create, f, true));
    } else if f.operation == "update" {
      router.Post(url, FactoryHandler(Update, f, true));
    } else if f.operation == "replace" {
      router.Put(url, FactoryHandler(Replace, f, true));
    } else if f.operation == "read" {
      router.Get(url, FactoryHandler(Read, f, false));
    } else if f.operation == "delete" {
      router.Delete(url, FactoryHandler(Delete, f, false));
    }
  }

  /**
   * Operation dispatch of the `Src` snapshot: a `switch` on the operation token whose
   * `default` case registers nothing; no handler merges `ctx.request`.
   */
  method BindSrc(router: CoreRouter, url: string, f: Factory)
    modifies router
    ensures router.stack == old(router.stack) + FactoryEntry(Src, url, f)
  {
    match f.operation {
      case "create" => router.Post(url, FactoryHandler(Create, f, false));
      case "update" => router.Post(url, FactoryHandler(Update, f, false));
      case "replace" => router.Put(url, FactoryHandler(Replace, f, false));
      case "read" => router.Get(url, FactoryHandler(Read, f, false));
      case "delete" => router.Delete(url, FactoryHandler(Delete, f, false));
      case _ =>
    }
  }

  /** Binding one more configured route appends exactly what that route contributes. */
  lemma BoundRoutesSnoc(s: Snapshot, idx: Index, routes: seq<Route>, route: Route)
    ensures BoundRoutes(s, idx, routes + [route]) == BoundRoutes(s, idx, routes) + RouteEntry(s, idx, route)
  {
    BoundRoutesAppend(s, idx, routes, [route]);
    assert [route][1..] == [];
  }

  /** The loop's step: the table for the first `k + 1` routes extends that for the first `k` by route `k`'s contribution. */
  lemma BoundRoutesStep(s: Snapshot, idx: Index, routes: seq<Route>, k: int)
    requires 0 <= k < |routes|
    ensures BoundRoutes(s, idx, routes[..k + 1]) == BoundRoutes(s, idx, routes[..k]) + RouteEntry(s, idx, routes[k])
  {
    assert routes[..k + 1] == routes[..k] + [routes[k]];
    BoundRoutesSnoc(s, idx, routes[..k], routes[k]);
  }

  /** One iteration of the configured-route loop: look the key up, and dispatch when a factory is found. */
  method BindRoute(s: Snapshot, router: CoreRouter, idx: Index, route: Route)
    modifies router
    ensures router.stack == old(router.stack) + RouteEntry(s, idx, route)
  {
    var found := Lookup(idx, route.cls, route.property);
    if found.Some? {
      if s == Lib {
        BindLib(router, route.url, found.value);
      } else {
        BindSrc(router, route.url, found.value);
      }
    }
  }

  /** The configured-route loop: bind every configured route in order. */
  method BindAll(s: Snapshot, router: CoreRouter, idx: Index, configured: seq<Route>)
    modifies router
    ensures router.stack == old(router.stack) + BoundRoutes(s, idx, configured)
  {
    for k := 0 to |configured|
      invariant router.stack == old(router.stack) + BoundRoutes(s, idx, configured[..k])
    {
      BoundRoutesStep(s, idx, configured, k);
      BindRoute(s, router, idx, configured[k]);
    }
    assert configured[..|configured|] == configured;
  }

  /**
   * `initRoutes`: the health route first, then the factory index, then one pass
   * over the configured routes in order, skipping those without a factory.
   */
  method InitRoutes(s: Snapshot, router: CoreRouter, factories: seq<Factory>, configured: seq<Route>)
    modifies router
    ensures router.stack == old(router.stack) + [HealthLayer] + BoundRoutes(s, IndexOf(factories), configured)
  {
    router.Get(HealthPath, Health);
    var idx := BuildIndex(factories);
    BindAll(s, router, idx, configured);
  }
}
