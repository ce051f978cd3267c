/**
 * `WebAnnotationHandler`: the older annotation handler. It behaves as the
 * resolver does, operation for operation, so it is modelled by running the
 * resolver's definitions.
 */
module WebAnnotationHandler {
  import opened Wrappers
  import opened JavaModel
  import opened Vertx
  import ARR = AnnotationRouteResolver

  /** `process(router, instance, clazz, method)`. */
  method Process(router: Router, instance: Service, clazz: JavaClass, m: JavaMethod)
    returns (thrown: Option<Throwable>)
    modifies router
    ensures router.routes == old(router.routes) + ARR.ProcessOutcome(instance, clazz, m).registered
    ensures thrown == ARR.ProcessOutcome(instance, clazz, m).thrown
  {
    thrown := ARR.Process(router, instance, clazz, m);
  }

  /** `contentType(route, clazz, method)`: the produces filters, then the consumes filters. */
  method ContentType(router: Router, route: nat, clazz: JavaClass, m: JavaMethod)
    requires route < |router.routes|
    modifies router
    ensures router.routes == old(router.routes)[route := old(router.routes)[route].(
      produces := old(router.routes)[route].produces + ARR.GetProduces(clazz, m).GetOr([]),
      consumes := old(router.routes)[route].consumes + ARR.GetConsumes(clazz, m).GetOr([]))]
  {
    ARR.AndRouteBasedContentType(router, route, clazz, m);
  }

  /** The handler built by `wrap`, applied to a context. */
  method Handle(h: RequestHandler, ctx: RoutingContext, behaviour: Option<Throwable>)
    modifies ctx
    ensures ctx.events == old(ctx.events) + ARR.HandlerEvents(h, ctx.acceptableContentType, behaviour)
  {
    ARR.Handle(h, ctx, behaviour);
  }
}
