/**
 * The core router's route table: an append-only sequence of (verb, path, handler)
 * layers, in registration order.
 */
module Router {
  import opened Operations
  import opened Factories

  /**
   * What an installed handler does: the fixed health check, or the handler the
   * binder built for a factory, which knows its operation, its factory and whether
   * it merges `ctx.request` after `ctx.query` and `ctx.params`.
   */
  datatype Handler =
    | Health
    | FactoryHandler(op: Operation, factory: Factory, withRequest: bool)

  datatype Layer = Layer(verb: Verb, path: string, handler: Handler)

  /** The core router; only the registration methods the binder uses are modelled. */
  class CoreRouter {
    var stack: seq<Layer>

    constructor ()
      ensures stack == []
    {
      stack := [];
    }

    method Get(path: string, handler: Handler)
      modifies this
      ensures stack == old(stack) + [Layer(GET, path, handler)]
    {
      stack := stack + [Layer(GET, path, handler)];
    }

    method Post(path: string, handler: Handler)
      modifies this
      ensures stack == old(stack) + [Layer(POST, path, handler)]
    {
      stack := stack + [Layer(POST, path, handler)];
    }

    method Put(path: string, handler: Handler)
      modifies this
      ensures stack == old(stack) + [Layer(PUT, path, handler)]
    {
      stack := stack + [Layer(PUT, path, handler)];
    }

    method Delete(path: string, handler: Handler)
      modifies this
      ensures stack == old(stack) + [Layer(DELETE, path, handler)]
    {
      stack := stack + [Layer(DELETE, path, handler)];
    }
  }
}
