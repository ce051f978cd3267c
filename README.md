# Annotation-driven route binding for Vert.x Web

This project models the route-binding layer of vertx-assistant and proves
properties of it. Application code hands service objects to a
`RouteBinder`. On `bind(router)` the binder offers every public method of
every service to every registered `RouteResolver`.

The built-in `AnnotationRouteResolver` does the following for each method:

- It reads the nine route annotations (`@Get` … `@Patch`, then `@Path` for
  any verb) in a fixed order.
- It checks that the method takes a single parameter that is
  `RoutingContext`, a subtype of it, or exactly `Object`.
- For each annotation it registers one route. The route's path is the
  class-level `@Path` prefix plus the annotation value. Its handler invokes
  the method. It carries the effective `@Produces` and `@Consumes` filters.
- An annotated method whose signature does not fit makes it throw.

`WebAnnotationHandler` is an older copy of the same resolver.

## How the model is built

- **Reflection is data.** `java_model.dfy` holds reflection as plain values:
  classes, methods, annotations, and types with their supertypes.
  `Class.getMethods()` is the method sequence of a `JavaClass`, taken in the
  order given.
- **Vert.x is two small classes** (`vertx.dfy`).
  - A `Router` is an append-only log of registrations. A `Route` object is
    its index in the log, so `route.produces(...)` and `route.consumes(...)`
    update that log entry in place.
  - A `RoutingContext` records what a handler did to it: header writes,
    invocations and `fail` calls.
- **The resolver** (`annotation_route_resolver.dfy`) has two layers.
  - Pure functions for the lookups and checks.
  - Methods that change the router or the context, each proved against a
    specification function: `Process` against `ProcessTags`, `ProcessTag`
    against `TagStep`, `AndRouteBasedContentType` against `GetProduces` and
    `GetConsumes`, and `Handle` against `HandlerEvents`. The source writes
    the nine annotation blocks of `process` out one after another; the model
    runs them in the same order in a loop, one block per iteration
    (`ProcessTag`).
- **Exceptions.** A thrown exception is an `Option<Throwable>` result. An
  operation that throws leaves in the router what it had registered so far.
- **Resolver properties** (`resolver_properties.dfy`) give `process` in
  closed form through the tags a method carries (`PresentTags`). From that
  follow all-or-nothing, count, order and the skip rules.
- **The binder** (`route_binder.dfy`) is a class with the two lists the
  source keeps. `bind` is proved against `RunCalls(BindCalls(...))`:
  - `BindCalls` is the sequence of (service, method, resolver) calls;
  - `RunCalls` runs them until the first exception.
  `binder_properties.dfy` proves the enumeration order and the fail-fast
  behaviour.
- **The older handler.** `WebAnnotationHandler` has its own `process`,
  `contentType` and `wrap`, modelled in `web_annotation_handler.dfy`. Its
  static helpers are the resolver's, statement for statement, so the model
  has one definition of each:
  - `getAnnotation(Method, Class)` (lines 221-246) is `GetMethodAnnotation`;
  - `getAnnotation(Class, Class)` (lines 248-269) is `GetClassAnnotation`;
  - `getServicePath` (lines 174-177) is `GetServicePath`;
  - `getProduces` (lines 160-172) is `GetProduces`;
  - `getConsumes` (lines 146-158) is `GetConsumes`;
  - `getMethodHandle` (lines 179-208) is `GetMethodHandle`;
  - `isCompatible` (lines 210-219) is `IsCompatible`.
- **Direction of the type check.** The code accepts a parameter whose type
  is `RoutingContext`, a subtype of it, or exactly `Object`:
  `RoutingContext.class.isAssignableFrom(paramType)`, plus the `Object`
  escape (AnnotationRouteResolver.java lines 187 and 190). Any other
  supertype of `RoutingContext` is refused (`ContextParameterRule`,
  `SupertypeRefused`).

## Model

| member | source | states |
|---|---|---|
| AnnotationRouteResolver.FirstAnnotation | vertx-web/src/main/java/com/dinstone/vertx/web/annotation/handler/AnnotationRouteResolver.java:262-269 | None exactly when no annotation of the type is present; otherwise the first annotation of that type, in declaration order |
| AnnotationRouteResolver.GetMethodAnnotation | vertx-web/src/main/java/com/dinstone/vertx/web/annotation/handler/AnnotationRouteResolver.java:223-247 | an annotation is found iff the method is non-static, public and carries one of that type; it is the first such |
| AnnotationRouteResolver.GetClassAnnotation | vertx-web/src/main/java/com/dinstone/vertx/web/annotation/handler/AnnotationRouteResolver.java:250-270 | an annotation is found iff the class is public and carries one of that type; it is the first such |
| AnnotationRouteResolver.GetServicePath | vertx-web/src/main/java/com/dinstone/vertx/web/annotation/handler/AnnotationRouteResolver.java:175-178 | the prefix is "" when the lookup sees no class-level Path (none, or a non-public class); otherwise it is the value of the first Path annotation |
| AnnotationRouteResolver.GetProduces | vertx-web/src/main/java/com/dinstone/vertx/web/annotation/handler/AnnotationRouteResolver.java:161-173 | a method-level Produces list replaces the class-level one; the class-level list applies only when the method has none; null when neither is seen |
| AnnotationRouteResolver.GetConsumes | vertx-web/src/main/java/com/dinstone/vertx/web/annotation/handler/AnnotationRouteResolver.java:147-159 | a method-level Consumes list replaces the class-level one; the class-level list applies only when the method has none; null when neither is seen |
| AnnotationRouteResolver.ParametersMatchFrom | vertx-web/src/main/java/com/dinstone/vertx/web/annotation/handler/AnnotationRouteResolver.java:186-194 | the check loop succeeds from index i iff every later parameter is assignable to the required type or is exactly Object |
| AnnotationRouteResolver.GetMethodHandle | vertx-web/src/main/java/com/dinstone/vertx/web/annotation/handler/AnnotationRouteResolver.java:180-209 | null iff the arity differs or some parameter is refused; for a compatible signature, a handle to the method, or the wrapped IllegalAccessException when the method cannot be unreflected |
| AnnotationRouteResolver.IsCompatible | vertx-web/src/main/java/com/dinstone/vertx/web/annotation/handler/AnnotationRouteResolver.java:211-220 | false when the lookup does not see the annotation; with it, true for a usable signature, "Method signature not compatible!" for a refused one, and the access error passed through |
| AnnotationRouteResolver.RouteFor | vertx-web/src/main/java/com/dinstone/vertx/web/annotation/handler/AnnotationRouteResolver.java:58-63 | the route of one annotation: its verb (any verb for Path); a path that is the class prefix followed by the annotation's value; a handler around the method; the effective produces and consumes lists |
| AnnotationRouteResolver.ProcessTagsStopped | vertx-web/src/main/java/com/dinstone/vertx/web/annotation/handler/AnnotationRouteResolver.java:56-112 | once a block has thrown, the later blocks never run: the outcome is the outcome up to that block |
| AnnotationRouteResolver.Process | vertx-web/src/main/java/com/dinstone/vertx/web/annotation/handler/AnnotationRouteResolver.java:56-112 | the router gains exactly the routes of the specification ProcessOutcome, after the existing ones, and the method throws exactly what it specifies |
| AnnotationRouteResolver.ProcessTag | vertx-web/src/main/java/com/dinstone/vertx/web/annotation/handler/AnnotationRouteResolver.java:58-63 | one block: nothing without the annotation, one route for a compatible method, the exception otherwise |
| AnnotationRouteResolver.AndRouteBasedContentType | vertx-web/src/main/java/com/dinstone/vertx/web/annotation/handler/AnnotationRouteResolver.java:114-130 | the effective produces list is appended, in array order, to that route's produces filters, and the effective consumes list, in array order, to its consumes filters; every other route is unchanged |
| AnnotationRouteResolver.Handle | vertx-web/src/main/java/com/dinstone/vertx/web/annotation/handler/AnnotationRouteResolver.java:132-145 | the context gets the Content-Type header when a type was negotiated, then the invocation, then a fail with the exception exactly when the target threw |
| ResolverProperties.PresentTagsMembers | vertx-web/src/main/java/com/dinstone/vertx/web/annotation/handler/AnnotationRouteResolver.java:58-111 | the tags that take part are exactly those whose annotation the lookup sees on the method |
| ResolverProperties.PresentTagsOrdered | vertx-web/src/main/java/com/dinstone/vertx/web/annotation/handler/AnnotationRouteResolver.java:58-111 | the tags that take part keep the order in which process checks them |
| ResolverProperties.TagStepCases | vertx-web/src/main/java/com/dinstone/vertx/web/annotation/handler/AnnotationRouteResolver.java:58-63 | the four cases of one block: absent, incompatible signature, access denied, registered |
| ResolverProperties.ProcessClosedForm | vertx-web/src/main/java/com/dinstone/vertx/web/annotation/handler/AnnotationRouteResolver.java:56-112 | process gives nothing for a method without route annotations; otherwise it gives the signature error, the access error, or one route per carried annotation in order |
| ResolverProperties.ProcessAllOrNothing | vertx-web/src/main/java/com/dinstone/vertx/web/annotation/handler/AnnotationRouteResolver.java:56-112 | when process throws, no route has been registered for the method; it throws iff the method carries a route annotation and either its signature is refused or the method cannot be unreflected; an unannotated method changes nothing |
| ResolverProperties.RegistrationsFollowTagOrder | vertx-web/src/main/java/com/dinstone/vertx/web/annotation/handler/AnnotationRouteResolver.java:56-112 | a compatible method carrying k route annotations gets exactly k routes, in GET … PATCH, Path order, each with its verb, the path prefix and value, its handler and the effective filters |
| ResolverProperties.TagOrderComplete | vertx-web/src/main/java/com/dinstone/vertx/web/annotation/handler/AnnotationRouteResolver.java:56-112 | all nine route annotations are checked |
| ResolverProperties.TagOrderRanked | vertx-web/src/main/java/com/dinstone/vertx/web/annotation/handler/AnnotationRouteResolver.java:56-112 | the nine annotations are checked in GET, POST, PUT, DELETE, CONNECT, OPTIONS, HEAD, PATCH, Path order, each once |
| ResolverProperties.SkippedMethodIgnored | vertx-web/src/main/java/com/dinstone/vertx/web/annotation/handler/AnnotationRouteResolver.java:223-231 | a static or non-public method makes process register nothing and throw nothing |
| ResolverProperties.NothingPresent | vertx-web/src/main/java/com/dinstone/vertx/web/annotation/handler/AnnotationRouteResolver.java:223-231 | a method on which the lookup sees no route annotation takes part in no block |
| ResolverProperties.ContextParameterRule | vertx-web/src/main/java/com/dinstone/vertx/web/annotation/handler/AnnotationRouteResolver.java:185-194 | a signature is usable iff it has one parameter that is RoutingContext, a subtype of it, or exactly Object |
| ResolverProperties.SupertypeRefused | vertx-web/src/main/java/com/dinstone/vertx/web/annotation/handler/AnnotationRouteResolver.java:187-192 | a proper supertype of the required type, other than Object, is refused |
| ResolverProperties.HandlerContract | vertx-web/src/main/java/com/dinstone/vertx/web/annotation/handler/AnnotationRouteResolver.java:132-145 | the handler invokes its target exactly once; the Content-Type header is written once, before the invocation, exactly when a type was negotiated, and no header is written otherwise; the context fails once, last and with the thrown exception, exactly when the target threw, and never otherwise; nothing escapes |
| WebAnnotationHandler.Process | vertx-web/src/main/java/com/dinstone/vertx/web/annotation/handler/WebAnnotationHandler.java:55-111 | the older handler's process has the same effect and the same exception as the resolver's specification |
| WebAnnotationHandler.ContentType | vertx-web/src/main/java/com/dinstone/vertx/web/annotation/handler/WebAnnotationHandler.java:113-129 | the effective produces list is appended, in array order, to that route's produces filters, and the effective consumes list, in array order, to its consumes filters; every other route is unchanged |
| WebAnnotationHandler.Handle | vertx-web/src/main/java/com/dinstone/vertx/web/annotation/handler/WebAnnotationHandler.java:131-144 | the same header, invoke and fail contract as the resolver's handler |
| RouteBinder.Dispatch | vertx-web/src/main/java/com/dinstone/vertx/web/RouteBinder.java:69 | one resolver call: the router gains exactly that resolver's registrations, and its exception is returned |
| RouteBinder.RunSnoc | vertx-web/src/main/java/com/dinstone/vertx/web/RouteBinder.java:57-72 | a further call runs only when no earlier call threw |
| RouteBinder.RunAppend | vertx-web/src/main/java/com/dinstone/vertx/web/RouteBinder.java:57-72 | running two call sequences one after the other is running their concatenation: the second runs only if the first did not throw |
| RouteBinder.StoppedByPrefix | vertx-web/src/main/java/com/dinstone/vertx/web/RouteBinder.java:57-72 | once a prefix of the calls has thrown, nothing after it runs and the outcome is that of the prefix |
| RouteBinder.BindCallsPrefix | vertx-web/src/main/java/com/dinstone/vertx/web/RouteBinder.java:58-60 | the calls for the first i services come first |
| RouteBinder.MethodCallsPrefix | vertx-web/src/main/java/com/dinstone/vertx/web/RouteBinder.java:67-71 | the calls for the first j methods come first |
| RouteBinder.BindStopped | vertx-web/src/main/java/com/dinstone/vertx/web/RouteBinder.java:57-63 | an exception while processing service i ends bind with the outcome up to there |
| RouteBinder.MethodsStopped | vertx-web/src/main/java/com/dinstone/vertx/web/RouteBinder.java:65-72 | an exception at method j ends process with the outcome up to there |
| RouteBinder.ResolversStopped | vertx-web/src/main/java/com/dinstone/vertx/web/RouteBinder.java:68-70 | an exception from resolver k ends the method's loop with the outcome up to there |
| RouteBinder.DefaultRouteBinder.constructor | vertx-web/src/main/java/com/dinstone/vertx/web/RouteBinder.java:35-37 | a new binder has no services and exactly one resolver, the annotation resolver |
| RouteBinder.DefaultRouteBinder.Handler | vertx-web/src/main/java/com/dinstone/vertx/web/RouteBinder.java:40-46 | null leaves both lists unchanged; a service is appended at the end; the resolvers are unchanged; the same binder is returned |
| RouteBinder.DefaultRouteBinder.Resolver | vertx-web/src/main/java/com/dinstone/vertx/web/RouteBinder.java:49-54 | null leaves both lists unchanged; a resolver is appended at the end; the services are unchanged; the same binder is returned |
| RouteBinder.DefaultRouteBinder.Bind | vertx-web/src/main/java/com/dinstone/vertx/web/RouteBinder.java:57-63 | the router gains exactly the registrations of the calls for all triples, run until the first exception, which escapes; the binder's lists are not touched and the same binder is returned |
| RouteBinder.DefaultRouteBinder.Process | vertx-web/src/main/java/com/dinstone/vertx/web/RouteBinder.java:65-72 | the router gains the registrations of every (method, resolver) call for the service, method-major, until the first exception |
| RouteBinder.DefaultRouteBinder.ProcessMethod | vertx-web/src/main/java/com/dinstone/vertx/web/RouteBinder.java:68-70 | the router gains the registrations of each resolver's call for the method, in resolver order, until the first exception |
| RouteBinder.Create | vertx-web/src/main/java/com/dinstone/vertx/web/RouteBinder.java:75-77 | create returns a fresh binder with no services and only the annotation resolver |
| BinderProperties.MethodCallsLength | vertx-web/src/main/java/com/dinstone/vertx/web/RouteBinder.java:67-71 | a service with n methods and r resolvers gives n * r calls |
| BinderProperties.MethodCallsAt | vertx-web/src/main/java/com/dinstone/vertx/web/RouteBinder.java:67-71 | within a service, call j * r + k is method j with resolver k |
| BinderProperties.BindCallsLength | vertx-web/src/main/java/com/dinstone/vertx/web/RouteBinder.java:58-60 | bind makes exactly one call per (service, method, resolver) triple |
| BinderProperties.BindEnumeratesTriples | vertx-web/src/main/java/com/dinstone/vertx/web/RouteBinder.java:57-72 | the call for service i, method j and resolver k comes after all calls of the earlier services, at offset j * r + k; a service or resolver listed twice is called twice |
| BinderProperties.FailFast | vertx-web/src/main/java/com/dinstone/vertx/web/RouteBinder.java:57-72 | when call n is the first to throw, its exception escapes; the registrations before it and its own stay; no later call is made |
| BinderProperties.ThrownHasSource | vertx-web/src/main/java/com/dinstone/vertx/web/RouteBinder.java:57-72 | an exception escaping bind comes from a call reached with no earlier exception |
| BinderProperties.RegistrationsKept | vertx-web/src/main/java/com/dinstone/vertx/web/RouteBinder.java:57-72 | nothing is rolled back: the registrations of any prefix of the calls stay at the front |
| BinderProperties.CompleteRun | vertx-web/src/main/java/com/dinstone/vertx/web/RouteBinder.java:57-72 | the run ends without exception iff no call throws |
| BinderProperties.CompleteRunRegistersAll | vertx-web/src/main/java/com/dinstone/vertx/web/RouteBinder.java:57-72 | a run that ends without exception has registered every call's routes, in call order |
| BinderProperties.BindCallsSplit | vertx-web/src/main/java/com/dinstone/vertx/web/RouteBinder.java:58-60 | the calls of service i follow those of the services before it |

## Left out

- Null checks on reflection results are not modelled. `getAnnotations()` and
  `getParameterTypes()` never return null, so the `annotations == null`
  and `methodParamTypes == null` branches cannot be reached.
- The `route != null` guard in `andRouteBasedContentType` is not modelled.
  Vert.x's registration methods always return a route.
- Vert.x's own treatment of repeated `produces`/`consumes` values is not
  modelled. Every call is kept.
- AnnotationRouteResolver.AndRouteBasedContentType: a route keeps its
  produces filters and its consumes filters in two separate lists, each in
  call order. That all produces calls come before all consumes calls is
  not recorded, so no contract states it.
- WebAnnotationHandler.ContentType: for the same reason, it does not state
  that all produces calls come before all consumes calls.
- `ctx.response().putHeader` cannot fail in the model. An exception from it
  would also go to `ctx.fail`.
- The body of the invoked method is not modelled. What it does is the
  `behaviour` parameter: return normally or throw. A `ClassCastException`
  from the invocation is one such throw.
- `MethodHandles.publicLookup().unreflect`, `ConstantCallSite` and
  `dynamicInvoker` are JVM facilities. A successful check yields a
  `MethodHandle` value naming the method. When unreflect fails, the flag
  `JavaMethod.accessible` is false, and the result is the wrapped
  `IllegalAccessException` (`AccessDenied`).
- Resolvers supplied by the application are not modelled as code. Their
  effect on the router is a function of the service, class and method
  (`CustomResolver`), and is appended to the router's log.
- Concurrency is not modelled: the binder and router are used from one
  thread.
- The older handler has no definitions of its own: its `process`,
  `contentType` and wrapper run the resolver's definitions, because the two
  classes behave identically. Its lookups, signature check and wrapper are those of
  the resolver's members, cited above with the handler's own lines.
