/**
 * The binder: an ordered list of service objects and an ordered list of
 * route resolvers; `bind` offers every public method of every service to
 * every resolver, in that nesting, and lets the first exception escape.
 */
module RouteBinder {
  import opened Wrappers
  import opened JavaModel
  import opened Vertx
  import opened Sequences
  import ARR = AnnotationRouteResolver

  /**
   * A resolver registered with the binder: the annotation resolver of this
   * library, or one supplied by the application, whose effect on the router
   * is given as a function of the service, its class and the method.
   */
  datatype RouteResolver =
    | AnnotationResolver
    | CustomResolver(name: string, resolve: (Service, JavaClass, JavaMethod) -> Outcome)

  /** What one `resolver.process(router, service, clazz, method)` call does to the router. */
  function Resolve(resolver: RouteResolver, service: Service, m: JavaMethod): Outcome {
    match resolver
    case AnnotationResolver => ARR.ProcessOutcome(service, service.runtimeClass, m)
    case CustomResolver(_, resolve) => resolve(service, service.runtimeClass, m)
  }

  /** One `process` call made by `bind`. */
  datatype Call = Call(service: Service, target: JavaMethod, resolver: RouteResolver)

  function ResolveCall(c: Call): Outcome {
    Resolve(c.resolver, c.service, c.target)
  }

  /** The calls for one method: one per resolver, in registration order. */
  function ResolverCalls(service: Service, m: JavaMethod, resolvers: seq<RouteResolver>): seq<Call> {
    seq(|resolvers|, k requires 0 <= k < |resolvers| => Call(service, m, resolvers[k]))
  }

  /** The calls for the methods `methods` of one service, method by method. */
  function MethodCalls(service: Service, methods: seq<JavaMethod>, resolvers: seq<RouteResolver>): seq<Call>
    decreases |methods|
  {
    if methods == [] then []
    else MethodCalls(service, methods[..|methods| - 1], resolvers)
         + ResolverCalls(service, methods[|methods| - 1], resolvers)
  }

  /** The calls `process(router, service)` makes. */
  function ServiceCalls(service: Service, resolvers: seq<RouteResolver>): seq<Call> {
    MethodCalls(service, service.runtimeClass.methods, resolvers)
  }

  /** The calls `bind` makes, service by service. */
  function BindCalls(services: seq<Service>, resolvers: seq<RouteResolver>): seq<Call>
    decreases |services|
  {
    if services == [] then []
    else BindCalls(services[..|services| - 1], resolvers) + ServiceCalls(services[|services| - 1], resolvers)
  }

  /**
   * The effect of making the calls `calls` one after another, with no
   * handler around them: the first exception ends the run, and what was
   * registered before it stays.
   */
  function RunCalls(calls: seq<Call>): Outcome
    decreases |calls|
  {
    if calls == [] then Outcome([], None)
    else
      var before := RunCalls(calls[..|calls| - 1]);
      if before.thrown.Some? then before else ARR.Then(before.registered, ResolveCall(calls[|calls| - 1]))
  }

  /** Making one more call after `calls`. */
  lemma RunSnoc(calls: seq<Call>, c: Call)
    ensures RunCalls(calls + [c]) ==
      if RunCalls(calls).thrown.Some? then RunCalls(calls) else ARR.Then(RunCalls(calls).registered, ResolveCall(c))
  {
    assert (calls + [c])[..|calls|] == calls;
  }

  /** Running `a` then `b` is running `a + b`: `b` runs only if `a` did not throw. */
  lemma {:induction false} RunAppend(a: seq<Call>, b: seq<Call>)
    ensures RunCalls(a + b) ==
      if RunCalls(a).thrown.Some? then RunCalls(a) else ARR.Then(RunCalls(a).registered, RunCalls(b))
    decreases |b|
  {
    if b == [] {
      assert a + b == a;
      assert RunCalls(a).registered + [] == RunCalls(a).registered;
    } else {
      var b' := b[..|b| - 1];
      var c := b[|b| - 1];
      assert a + b == (a + b') + [c];
      assert b == b' + [c];
      RunAppend(a, b');
      RunSnoc(a + b', c);
      RunSnoc(b', c);
      if RunCalls(a).thrown.None? && RunCalls(b').thrown.None? {
        AppendAssociative(RunCalls(a).registered, RunCalls(b').registered, ResolveCall(c).registered);
      }
    }
  }

  lemma ResolverCallsSnoc(service: Service, m: JavaMethod, resolvers: seq<RouteResolver>, k: nat)
    requires k < |resolvers|
    ensures ResolverCalls(service, m, resolvers[..k + 1])
         == ResolverCalls(service, m, resolvers[..k]) + [Call(service, m, resolvers[k])]
  {
  }

  /**
   * `resolver.process(...)`: the annotation resolver runs its own
   * `process`; an application resolver's registrations are appended.
   */
  method Dispatch(resolver: RouteResolver, router: Router, service: Service, m: JavaMethod)
    returns (thrown: Option<Throwable>)
    modifies router
    ensures router.routes == old(router.routes) + Resolve(resolver, service, m).registered
    ensures thrown == Resolve(resolver, service, m).thrown
  {
    match resolver
    case AnnotationResolver =>
      thrown := ARR.Process(router, service, service.runtimeClass, m);
    case CustomResolver(_, resolve) =>
      var outcome := resolve(service, service.runtimeClass, m);
      router.RegisterAll(outcome.registered);
      thrown := outcome.thrown;
  }

  /** `RouteBinder.DefaultRouteBinder`. */
  class DefaultRouteBinder {
    var services: seq<Service>
    var resolvers: seq<RouteResolver>

    /** A new binder knows no service and has the annotation resolver. */
    constructor ()
      ensures services == [] && resolvers == [AnnotationResolver]
    {
      services := [];
      resolvers := [];
      new;
      var _ := Resolver(Some(AnnotationResolver));
    }

    /** `handler(service)`: append a non-null service; return this binder. */
    method Handler(service: Option<Service>) returns (self: DefaultRouteBinder)
      modifies this
      ensures self == this
      ensures services == if service.Some? then old(services) + [service.value] else old(services)
      ensures resolvers == old(resolvers)
    {
      if service.Some? {
        services := services + [service.value];
      }
      return this;
    }

    /** `resolver(resolver)`: append a non-null resolver; return this binder. */
    method Resolver(resolver: Option<RouteResolver>) returns (self: DefaultRouteBinder)
      modifies this
      ensures self == this
      ensures resolvers == if resolver.Some? then old(resolvers) + [resolver.value] else old(resolvers)
      ensures services == old(services)
    {
      if resolver.Some? {
        resolvers := resolvers + [resolver.value];
      }
      return this;
    }

    /**
     * `bind(router)`: every service in turn. `thrown` is the exception that
     * escapes `bind`, if any; the lists of the binder are not changed.
     */
    method Bind(router: Router) returns (self: DefaultRouteBinder, thrown: Option<Throwable>)
      modifies router
      ensures self == this
      ensures router.routes == old(router.routes) + RunCalls(BindCalls(services, resolvers)).registered
      ensures thrown == RunCalls(BindCalls(services, resolvers)).thrown
    {
      self := this;
      for i := 0 to |services|
        invariant router.routes == old(router.routes) + RunCalls(BindCalls(services[..i], resolvers)).registered
        invariant RunCalls(BindCalls(services[..i], resolvers)).thrown.None?
      {
        ghost var done := BindCalls(services[..i], resolvers);
        thrown := Process(router, services[i]);
        assert services[..i + 1][..i] == services[..i];
        RunAppend(done, ServiceCalls(services[i], resolvers));
        AppendAssociative(old(router.routes), RunCalls(done).registered,
                          RunCalls(ServiceCalls(services[i], resolvers)).registered);
        if thrown.Some? {
          BindStopped(services, resolvers, i + 1);
          return;
        }
      }
      assert services[..|services|] == services;
      thrown := None;
    }

    /** The private `process(router, service)`: every method, every resolver. */
    method Process(router: Router, service: Service) returns (thrown: Option<Throwable>)
      modifies router
      ensures router.routes == old(router.routes) + RunCalls(ServiceCalls(service, resolvers)).registered
      ensures thrown == RunCalls(ServiceCalls(service, resolvers)).thrown
    {
      var methods := service.runtimeClass.methods;
      for j := 0 to |methods|
        invariant router.routes == old(router.routes) + RunCalls(MethodCalls(service, methods[..j], resolvers)).registered
        invariant RunCalls(MethodCalls(service, methods[..j], resolvers)).thrown.None?
      {
        ghost var done := MethodCalls(service, methods[..j], resolvers);
        thrown := ProcessMethod(router, service, methods[j]);
        assert methods[..j + 1][..j] == methods[..j];
        RunAppend(done, ResolverCalls(service, methods[j], resolvers));
        AppendAssociative(old(router.routes), RunCalls(done).registered,
                          RunCalls(ResolverCalls(service, methods[j], resolvers)).registered);
        if thrown.Some? {
          MethodsStopped(service, methods, resolvers, j + 1);
          return;
        }
      }
      assert methods[..|methods|] == methods;
      thrown := None;
    }

    /** The inner loop of `process`: one method offered to every resolver. */
    method ProcessMethod(router: Router, service: Service, m: JavaMethod) returns (thrown: Option<Throwable>)
      modifies router
      ensures router.routes == old(router.routes) + RunCalls(ResolverCalls(service, m, resolvers)).registered
      ensures thrown == RunCalls(ResolverCalls(service, m, resolvers)).thrown
    {
      for k := 0 to |resolvers|
        invariant router.routes == old(router.routes) + RunCalls(ResolverCalls(service, m, resolvers[..k])).registered
        invariant RunCalls(ResolverCalls(service, m, resolvers[..k])).thrown.None?
      {
        ghost var done := ResolverCalls(service, m, resolvers[..k]);
        thrown := Dispatch(resolvers[k], router, service, m);
        ResolverCallsSnoc(service, m, resolvers, k);
        RunSnoc(done, Call(service, m, resolvers[k]));
        AppendAssociative(old(router.routes), RunCalls(done).registered, Resolve(resolvers[k], service, m).registered);
        if thrown.Some? {
          ResolversStopped(service, m, resolvers, k + 1);
          return;
        }
      }
      assert resolvers[..|resolvers|] == resolvers;
      thrown := None;
    }
  }

  /** `RouteBinder.create()`. */
  method Create() returns (binder: DefaultRouteBinder)
    ensures fresh(binder)
    ensures binder.services == [] && binder.resolvers == [AnnotationResolver]
  {
    binder := new DefaultRouteBinder();
  }

  /** Once a prefix of the calls has thrown, nothing after it runs. */
  lemma StoppedByPrefix(done: seq<Call>, calls: seq<Call>)
    requires done <= calls && RunCalls(done).thrown.Some?
    ensures RunCalls(calls) == RunCalls(done)
  {
    assert calls == done + calls[|done|..];
    RunAppend(done, calls[|done|..]);
  }

  lemma {:induction false} BindCallsPrefix(services: seq<Service>, resolvers: seq<RouteResolver>, i: nat)
    requires i <= |services|
    ensures BindCalls(services[..i], resolvers) <= BindCalls(services, resolvers)
    decreases |services|
  {
    if i < |services| {
      var init := services[..|services| - 1];
      assert init[..i] == services[..i];
      BindCallsPrefix(init, resolvers, i);
    } else {
      assert services[..i] == services;
    }
  }

  lemma {:induction false} MethodCallsPrefix(service: Service, methods: seq<JavaMethod>, resolvers: seq<RouteResolver>, j: nat)
    requires j <= |methods|
    ensures MethodCalls(service, methods[..j], resolvers) <= MethodCalls(service, methods, resolvers)
    decreases |methods|
  {
    if j < |methods| {
      var init := methods[..|methods| - 1];
      assert init[..j] == methods[..j];
      MethodCallsPrefix(service, init, resolvers, j);
    } else {
      assert methods[..j] == methods;
    }
  }

  lemma BindStopped(services: seq<Service>, resolvers: seq<RouteResolver>, i: nat)
    requires i <= |services| && RunCalls(BindCalls(services[..i], resolvers)).thrown.Some?
    ensures RunCalls(BindCalls(services, resolvers)) == RunCalls(BindCalls(services[..i], resolvers))
  {
    BindCallsPrefix(services, resolvers, i);
    StoppedByPrefix(BindCalls(services[..i], resolvers), BindCalls(services, resolvers));
  }

  lemma MethodsStopped(service: Service, methods: seq<JavaMethod>, resolvers: seq<RouteResolver>, j: nat)
    requires j <= |methods| && RunCalls(MethodCalls(service, methods[..j], resolvers)).thrown.Some?
    ensures RunCalls(MethodCalls(service, methods, resolvers)) == RunCalls(MethodCalls(service, methods[..j], resolvers))
  {
    MethodCallsPrefix(service, methods, resolvers, j);
    StoppedByPrefix(MethodCalls(service, methods[..j], resolvers), MethodCalls(service, methods, resolvers));
  }

  lemma ResolversStopped(service: Service, m: JavaMethod, resolvers: seq<RouteResolver>, k: nat)
    requires k <= |resolvers| && RunCalls(ResolverCalls(service, m, resolvers[..k])).thrown.Some?
    ensures RunCalls(ResolverCalls(service, m, resolvers)) == RunCalls(ResolverCalls(service, m, resolvers[..k]))
  {
    assert ResolverCalls(service, m, resolvers[..k]) <= ResolverCalls(service, m, resolvers);
    StoppedByPrefix(ResolverCalls(service, m, resolvers[..k]), ResolverCalls(service, m, resolvers));
  }
}
