/**
 * What an installed handler does to the request context when the router runs it:
 * merge the request maps, render the call arguments, call the factory method and
 * write the outcome onto `ctx.status`, `ctx.body` and `ctx.type`.
 */
module Handlers {
  import opened Wrappers
  import opened Props
  import opened Operations
  import opened Factories
  import opened Router

  /** The outcome of awaiting the factory method: a value, or a thrown error (or rejected promise). */
  datatype CallResult = Returned(value: Value) | Threw(message: string)

  /**
   * `core.renderDataParams(merged, targetName, targetProperty)`: turns the merged map
   * into the argument list of the factory method. Its coercion rules live outside the
   * binder, so it is a parameter; it may throw, which a `Failure` stands for.
   */
  type Renderer = (Props, string, string) -> Result<seq<Value>, string>

  /** Calls method `targetProperty` of the component instance `targetName` with the arguments. */
  type Invoker = (string, string, seq<Value>) -> CallResult

  datatype Request = Request(query: Props, params: Props, request: Props)

  /** The response fields a handler writes; `None` stands for a field that is not set. */
  datatype Response = Response(status: int, body: Option<Value>, contentType: Option<string>)

  /** The response after the handler ran, and the error that escaped it, if any. */
  datatype Outcome = Outcome(response: Response, escaped: Option<string>)

  /** JavaScript truthiness of an optional string: present and not empty. */
  predicate Truthy(t: Option<string>)
  {
    t.Some? && t.value != ""
  }

  /** The arguments a factory handler passes to its factory method for this request. */
  function Arguments(f: Factory, withRequest: bool, req: Request, render: Renderer): Result<seq<Value>, string>
  {
    render(Merged(req.query, req.params, req.request, withRequest), f.targetName, f.targetProperty)
  }

  /**
   * The effect of running handler `h` on a request whose response so far is `before`.
   * The four writing handlers turn a throw of the factory call into status 500 and a
   * success into their fixed status, and leave body and type alone; the read handler
   * sets the body from the returned value and the type only for a truthy
   * `resultType`, and lets a throw escape. Rendering happens before the `try`, so a
   * rendering failure escapes every factory handler and changes nothing.
   */
  function Effect(h: Handler, req: Request, before: Response, render: Renderer, invoke: Invoker): (r: Outcome)
    ensures h.Health? ==> r.escaped.None? && r.response == before.(status := 200)
    ensures h.FactoryHandler? && Arguments(h.factory, h.withRequest, req, render).Failure? ==>
      r == Outcome(before, Some(Arguments(h.factory, h.withRequest, req, render).error))
    ensures h.FactoryHandler? && h.op != Read ==>
      (r.escaped.Some? <==> Arguments(h.factory, h.withRequest, req, render).Failure?) &&
      r.response.body == before.body && r.response.contentType == before.contentType
    ensures h.FactoryHandler? && h.op != Read && Arguments(h.factory, h.withRequest, req, render).Success? ==>
      var call := invoke(h.factory.targetName, h.factory.targetProperty, Arguments(h.factory, h.withRequest, req, render).value);
      (r.response.status == FailureStatus <==> call.Threw?) &&
      (call.Returned? ==> Some(r.response.status) == SuccessStatus(h.op))
    ensures h.FactoryHandler? && h.op == Read ==> r.response.status == before.status
    ensures h.FactoryHandler? && h.op == Read && Arguments(h.factory, h.withRequest, req, render).Success? ==>
      var call := invoke(h.factory.targetName, h.factory.targetProperty, Arguments(h.factory, h.withRequest, req, render).value);
      (call.Threw? ==> r == Outcome(before, Some(call.message))) &&
      (call.Returned? ==>
        (r.escaped.None? && r.response.body == Some(call.value) &&
         r.response.contentType == (if Truthy(h.factory.resultType) then h.factory.resultType else before.contentType)))
  {
    match h
    case Health => Outcome(before.(status := 200), None)
    case FactoryHandler(op, f, withRequest) =>
      match Arguments(f, withRequest, req, render)
      case Failure(e) => Outcome(before, Some(e))
      case Success(args) =>
        var call := invoke(f.targetName, f.targetProperty, args);
        if op == Read then
          match call
          case Threw(e) => Outcome(before, Some(e))
          case Returned(v) =>
            var contentType := if Truthy(f.resultType) then f.resultType else before.contentType;
            Outcome(before.(body := Some(v), contentType := contentType), None)
        else
          match call
          case Threw(_) => Outcome(before.(status := FailureStatus), None)
          case Returned(_) => Outcome(before.(status := SuccessStatus(op).value), None)
  }

  /** The Koa request context a handler runs against. */
  class Context {
    var query: Props
    var params: Props
    var request: Props
    var status: int
    var body: Option<Value>
    var contentType: Option<string>

    /** A fresh context: Koa starts a response at status 404 with no body and no type. */
    constructor (query: Props, params: Props, request: Props)
      ensures this.query == query && this.params == params && this.request == request
      ensures status == 404 && body == None && contentType == None
    {
      this.query, this.params, this.request := query, params, request;
      status, body, contentType := 404, None, None;
    }

    function RequestView(): Request
      reads this
    {
      Request(query, params, request)
    }

    function ResponseView(): Response
      reads this
    {
      Response(status, body, contentType)
    }
  }

  /**
   * Runs an installed handler against `ctx`, assigning its response fields in place;
   * returns the error that escapes the handler, if any.
   */
  method Run(h: Handler, ctx: Context, render: Renderer, invoke: Invoker) returns (escaped: Option<string>)
    modifies ctx
    ensures ctx.RequestView() == old(ctx.RequestView())
    ensures Outcome(ctx.ResponseView(), escaped) == Effect(h, old(ctx.RequestView()), old(ctx.ResponseView()), render, invoke)
  {
    escaped := None;
    match h
    case Health =>
      ctx.status := 200;
    case FactoryHandler(op, f, withRequest) =>
      var merged := Merged(ctx.query, ctx.params, ctx.request, withRequest);
      var rendered := render(merged, f.targetName, f.targetProperty);
      if rendered.Failure? {
        escaped := Some(rendered.error);
        return;
      }
      var call := invoke(f.targetName, f.targetProperty, rendered.value);
      if op == Read {
        if call.Threw? {
          escaped := Some(call.message);
          return;
        }
        ctx.body := Some(call.value);
        if Truthy(f.resultType) {
          ctx.contentType := f.resultType;
        }
      } else if call.Returned? {
        ctx.status := SuccessStatus(op).value;
      } else {
        ctx.status := FailureStatus;
      }
  }
}
