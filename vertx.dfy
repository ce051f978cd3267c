/**
 * The part of Vert.x Web this layer talks to: a router that records
 * registrations, and a routing context that records what a handler did to it.
 */
module Vertx {
  import opened Wrappers
  import opened JavaModel

  /** The router method used to register: `router.get(path)` ... `router.patch(path)`, and `router.route(path)` for ANY. */
  datatype HttpVerb = GET | POST | PUT | DELETE | CONNECT | OPTIONS | HEAD | PATCH | ANY

  /** A validated, directly invocable reference to a method. */
  datatype MethodHandle = MethodHandle(reflected: JavaMethod)

  /** The handler closure built by `wrap(instance, mh)`. */
  datatype RequestHandler = Wrapped(instance: Service, target: MethodHandle)

  /** One registered route with its handler and the content-type filters added to it, in call order. */
  datatype Route = Route(
    verb: HttpVerb,
    path: string,
    handler: RequestHandler,
    produces: seq<string>,
    consumes: seq<string>)

  /** What one resolver call did: the routes it registered, in order, and what it threw. */
  datatype Outcome = Outcome(registered: seq<Route>, thrown: Option<Throwable>)

  /** A router as an append-only log of registrations; a `Route` object is its index in the log. */
  class Router {
    var routes: seq<Route>

    constructor ()
      ensures routes == []
    {
      routes := [];
    }

    /** `router.<verb>(path).handler(handler)`. */
    method Register(verb: HttpVerb, path: string, handler: RequestHandler) returns (route: nat)
      modifies this
      ensures route == |old(routes)|
      ensures routes == old(routes) + [Route(verb, path, handler, [], [])]
    {
      route := |routes|;
      routes := routes + [Route(verb, path, handler, [], [])];
    }

    /** `route.produces(mediaType)`. */
    method Produces(route: nat, mediaType: string)
      requires route < |routes|
      modifies this
      ensures routes == old(routes)[route := old(routes)[route].(produces := old(routes)[route].produces + [mediaType])]
    {
      routes := routes[route := routes[route].(produces := routes[route].produces + [mediaType])];
    }

    /** `route.consumes(mediaType)`. */
    method Consumes(route: nat, mediaType: string)
      requires route < |routes|
      modifies this
      ensures routes == old(routes)[route := old(routes)[route].(consumes := old(routes)[route].consumes + [mediaType])]
    {
      routes := routes[route := routes[route].(consumes := routes[route].consumes + [mediaType])];
    }

    /** The registrations made by a resolver whose code is not part of this model. */
    method RegisterAll(registered: seq<Route>)
      modifies this
      ensures routes == old(routes) + registered
    {
      routes := routes + registered;
    }
  }

  const ContentTypeHeader: string := "Content-Type"

  /** What a handler does to a routing context, in order. */
  datatype ContextEvent =
    | HeaderPut(name: string, value: string)
    | Invoked(instance: Service, target: MethodHandle)
    | Failed(error: Throwable)

  /** A routing context: the negotiated content type (null when none) and the log of what was done to it. */
  class RoutingContext {
    const acceptableContentType: Option<string>
    var events: seq<ContextEvent>

    constructor (acceptable: Option<string>)
      ensures acceptableContentType == acceptable && events == []
    {
      acceptableContentType := acceptable;
      events := [];
    }

    /** `ctx.response().putHeader(name, value)`. */
    method PutHeader(name: string, value: string)
      modifies this
      ensures events == old(events) + [HeaderPut(name, value)]
    {
      events := events + [HeaderPut(name, value)];
    }

    /** `ctx.fail(error)`. */
    method Fail(error: Throwable)
      modifies this
      ensures events == old(events) + [Failed(error)]
    {
      events := events + [Failed(error)];
    }
  }

  /**
   * `mh.invoke(instance, ctx)`. The method body is not part of this model:
   * `behaviour` is what it does, return normally (None) or throw.
   */
  method Invoke(target: MethodHandle, instance: Service, ctx: RoutingContext, behaviour: Option<Throwable>)
    returns (thrown: Option<Throwable>)
    modifies ctx
    ensures ctx.events == old(ctx.events) + [Invoked(instance, target)]
    ensures thrown == behaviour
  {
    ctx.events := ctx.events + [Invoked(instance, target)];
    thrown := behaviour;
  }
}
