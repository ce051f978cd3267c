/**
 * The annotation-driven route resolver: for one method of one service class it
 * checks the nine route annotations in a fixed order, validates the method's
 * signature, registers one route per annotation and adds content-type filters.
 */
module AnnotationRouteResolver {
  import opened Wrappers
  import opened JavaModel
  import opened Vertx
  import opened Sequences

  const RoutingContextType: JavaType := JavaType("io.vertx.ext.web.RoutingContext", {ObjectTypeName})

  /** The parameter list a route method must be compatible with: a single routing context. */
  const RequiredParameters: seq<JavaType> := [RoutingContextType]

  /** The order in which `process` checks the route annotations. */
  const TagOrder: seq<Tag> := [Get, Post, Put, Delete, Connect, Options, Head, Patch, Path]

  const SignatureMessage: string := "Method signature not compatible!"

  // ---------------------------------------------------------------------------
  // Annotation lookup

  /** Some annotation in `annotations` has type `t`. */
  ghost predicate HasAnnotation(annotations: seq<Annotation>, t: AnnotationType) {
    exists i :: 0 <= i < |annotations| && AnnotationTypeOf(annotations[i]) == t
  }

  /** `a` has type `t` and is the first annotation of that type in `annotations`. */
  ghost predicate IsFirstOfType(annotations: seq<Annotation>, t: AnnotationType, a: Annotation) {
    AnnotationTypeOf(a) == t &&
    exists i :: 0 <= i < |annotations| && annotations[i] == a &&
      forall j :: 0 <= j < i ==> AnnotationTypeOf(annotations[j]) != t
  }

  /** The annotation lookup on a method sees an annotation of type `t`. */
  ghost predicate MethodDeclares(m: JavaMethod, t: AnnotationType) {
    !m.isStatic && m.isPublic && HasAnnotation(m.annotations, t)
  }

  /** The annotation lookup on a class sees an annotation of type `t`. */
  ghost predicate ClassDeclares(c: JavaClass, t: AnnotationType) {
    c.isPublic && HasAnnotation(c.annotations, t)
  }

  /** The loop shared by both `getAnnotation` overloads: the first annotation of type `t`. */
  function FirstAnnotation(annotations: seq<Annotation>, t: AnnotationType): (r: Option<Annotation>)
    ensures r.None? <==> !HasAnnotation(annotations, t)
    ensures r.Some? ==> IsFirstOfType(annotations, t, r.value)
  {
    if annotations == [] then None
    else if AnnotationTypeOf(annotations[0]) == t then
      assert IsFirstOfType(annotations, t, annotations[0]);
      Some(annotations[0])
    else
      var r := FirstAnnotation(annotations[1..], t);
      assert HasAnnotation(annotations[1..], t) ==> HasAnnotation(annotations, t) by {
        if HasAnnotation(annotations[1..], t) {
          var i :| 0 <= i < |annotations[1..]| && AnnotationTypeOf(annotations[1..][i]) == t;
          assert AnnotationTypeOf(annotations[i + 1]) == t;
        }
      }
      assert HasAnnotation(annotations, t) ==> HasAnnotation(annotations[1..], t) by {
        if HasAnnotation(annotations, t) {
          var i :| 0 <= i < |annotations| && AnnotationTypeOf(annotations[i]) == t;
          assert AnnotationTypeOf(annotations[1..][i - 1]) == t;
        }
      }
      assert r.Some? ==> IsFirstOfType(annotations, t, r.value) by {
        if r.Some? {
          var i :| 0 <= i < |annotations[1..]| && annotations[1..][i] == r.value &&
            forall j :: 0 <= j < i ==> AnnotationTypeOf(annotations[1..][j]) != t;
          assert annotations[i + 1] == r.value;
          assert forall j :: 0 <= j < i + 1 ==> AnnotationTypeOf(annotations[j]) != t by {
            forall j | 0 <= j < i + 1 ensures AnnotationTypeOf(annotations[j]) != t {
              if j > 0 { assert annotations[j] == annotations[1..][j - 1]; }
            }
          }
        }
      }
      r
  }

  /** `getAnnotation(Method, Class)`: static and non-public methods never carry a visible annotation. */
  function GetMethodAnnotation(m: JavaMethod, t: AnnotationType): (r: Option<Annotation>)
    ensures r.Some? <==> MethodDeclares(m, t)
    ensures r.Some? ==> IsFirstOfType(m.annotations, t, r.value)
  {
    if m.isStatic then None
    else if !m.isPublic then None
    else FirstAnnotation(m.annotations, t)
  }

  /** `getAnnotation(Class, Class)`: the annotations of a non-public class are ignored. */
  function GetClassAnnotation(c: JavaClass, t: AnnotationType): (r: Option<Annotation>)
    ensures r.Some? <==> ClassDeclares(c, t)
    ensures r.Some? ==> IsFirstOfType(c.annotations, t, r.value)
  {
    if !c.isPublic then None
    else FirstAnnotation(c.annotations, t)
  }

  /** The class-level path prefix: the value of the class's `Path`, or empty. */
  function GetServicePath(c: JavaClass): (prefix: string)
    ensures !ClassDeclares(c, TagType(Path)) ==> prefix == ""
    ensures ClassDeclares(c, TagType(Path)) ==> IsFirstOfType(c.annotations, TagType(Path), TagAnnotation(Path, prefix))
  {
    match GetClassAnnotation(c, TagType(Path))
    case None => ""
    case Some(a) => a.value
  }

  /** The media types a route produces: the method-level list replaces the class-level one. */
  function GetProduces(c: JavaClass, m: JavaMethod): (produces: Option<seq<string>>)
    ensures MethodDeclares(m, ProducesType) ==>
      produces.Some? && IsFirstOfType(m.annotations, ProducesType, ProducesAnnotation(produces.value))
    ensures !MethodDeclares(m, ProducesType) && ClassDeclares(c, ProducesType) ==>
      produces.Some? && IsFirstOfType(c.annotations, ProducesType, ProducesAnnotation(produces.value))
    ensures !MethodDeclares(m, ProducesType) && !ClassDeclares(c, ProducesType) ==> produces.None?
  {
    var fromClass := match GetClassAnnotation(c, ProducesType)
      case Some(a) => Some(a.mediaTypes)
      case None => None;
    match GetMethodAnnotation(m, ProducesType)
    case Some(a) => Some(a.mediaTypes)
    case None => fromClass
  }

  /** The media types a route consumes: the method-level list replaces the class-level one. */
  function GetConsumes(c: JavaClass, m: JavaMethod): (consumes: Option<seq<string>>)
    ensures MethodDeclares(m, ConsumesType) ==>
      consumes.Some? && IsFirstOfType(m.annotations, ConsumesType, ConsumesAnnotation(consumes.value))
    ensures !MethodDeclares(m, ConsumesType) && ClassDeclares(c, ConsumesType) ==>
      consumes.Some? && IsFirstOfType(c.annotations, ConsumesType, ConsumesAnnotation(consumes.value))
    ensures !MethodDeclares(m, ConsumesType) && !ClassDeclares(c, ConsumesType) ==> consumes.None?
  {
    var fromClass := match GetClassAnnotation(c, ConsumesType)
      case Some(a) => Some(a.mediaTypes)
      case None => None;
    match GetMethodAnnotation(m, ConsumesType)
    case Some(a) => Some(a.mediaTypes)
    case None => fromClass
  }

  // ---------------------------------------------------------------------------
  // Signature check

  /**
   * A declared parameter type is accepted for a required one when the required
   * type is assignable from it (it is that type or a subtype), or when it is
   * exactly `Object`, the escape for callers that skip static type checks.
   */
  predicate Accepts(required: JavaType, actual: JavaType) {
    IsAssignableFrom(required, actual) || actual.name == ObjectTypeName
  }

  /** The reference rule: same arity and every parameter accepted. */
  ghost predicate SignatureCompatible(actual: seq<JavaType>, required: seq<JavaType>) {
    |actual| == |required| &&
    forall k :: 0 <= k < |actual| ==> Accepts(required[k], actual[k])
  }

  /** The check loop of `getMethodHandle` from index `i` on, with its early `return null`. */
  function ParametersMatchFrom(actual: seq<JavaType>, required: seq<JavaType>, i: nat): (ok: bool)
    requires |actual| == |required| && i <= |actual|
    decreases |actual| - i
    ensures ok <==> forall k :: i <= k < |actual| ==> Accepts(required[k], actual[k])
  {
    if i == |actual| then true
    else if !IsAssignableFrom(required[i], actual[i]) && actual[i].name != ObjectTypeName then false
    else ParametersMatchFrom(actual, required, i + 1)
  }

  /**
   * `getMethodHandle`: no handle (null) for an incompatible signature; for a
   * compatible one, a handle, or the wrapped IllegalAccessException when the
   * public lookup may not unreflect the method.
   */
  function GetMethodHandle(m: JavaMethod, paramTypes: seq<JavaType>): (r: Result<Option<MethodHandle>>)
    ensures r == Ok(None) <==> !SignatureCompatible(m.parameterTypes, paramTypes)
    ensures r.Throws? <==> SignatureCompatible(m.parameterTypes, paramTypes) && !m.accessible
    ensures r.Throws? ==> r.error == AccessDenied(m.name)
    ensures r.Ok? && r.value.Some? ==> r.value.value == MethodHandle(m)
  {
    if |m.parameterTypes| != |paramTypes| then Ok(None)
    else if !ParametersMatchFrom(m.parameterTypes, paramTypes, 0) then Ok(None)
    else if !m.accessible then Throws(AccessDenied(m.name))
    else Ok(Some(MethodHandle(m)))
  }

  /**
   * `isCompatible`: false without the annotation; with it, true for a usable
   * signature and a RuntimeException otherwise.
   */
  function IsCompatible(m: JavaMethod, annotation: AnnotationType, paramTypes: seq<JavaType>): (r: Result<bool>)
    ensures !MethodDeclares(m, annotation) ==> r == Ok(false)
    ensures MethodDeclares(m, annotation) && !SignatureCompatible(m.parameterTypes, paramTypes) ==>
      r == Throws(RuntimeException(SignatureMessage))
    ensures MethodDeclares(m, annotation) && SignatureCompatible(m.parameterTypes, paramTypes) && !m.accessible ==>
      r == Throws(AccessDenied(m.name))
    ensures MethodDeclares(m, annotation) && SignatureCompatible(m.parameterTypes, paramTypes) && m.accessible ==>
      r == Ok(true)
  {
    if GetMethodAnnotation(m, annotation).Some? then
      match GetMethodHandle(m, paramTypes)
      case Throws(e) => Throws(e)
      case Ok(handle) => if handle.Some? then Ok(true) else Throws(RuntimeException(SignatureMessage))
    else Ok(false)
  }

  // ---------------------------------------------------------------------------
  // What `process` registers

  function VerbOf(t: Tag): HttpVerb {
    match t
    case Get => GET
    case Post => POST
    case Put => PUT
    case Delete => DELETE
    case Connect => CONNECT
    case Options => OPTIONS
    case Head => HEAD
    case Patch => PATCH
    case Path => ANY
  }

  /** `wrap(instance, mh)`. */
  function Wrap(instance: Service, mh: MethodHandle): RequestHandler {
    Wrapped(instance, mh)
  }

  /** The route one annotation `t` of a compatible method yields, with its filters applied. */
  function RouteFor(instance: Service, clazz: JavaClass, m: JavaMethod, t: Tag): (route: Route)
    requires MethodDeclares(m, TagType(t))
    ensures route.verb == VerbOf(t)
    ensures GetServicePath(clazz) <= route.path
    ensures IsFirstOfType(m.annotations, TagType(t), TagAnnotation(t, route.path[|GetServicePath(clazz)|..]))
    ensures route.handler == Wrapped(instance, MethodHandle(m))
    ensures route.produces == GetProduces(clazz, m).GetOr([])
    ensures route.consumes == GetConsumes(clazz, m).GetOr([])
  {
    var a := GetMethodAnnotation(m, TagType(t)).value;
    var prefix := GetServicePath(clazz);
    assert (prefix + a.value)[|prefix|..] == a.value;
    Route(VerbOf(t), prefix + a.value, Wrap(instance, MethodHandle(m)),
          GetProduces(clazz, m).GetOr([]), GetConsumes(clazz, m).GetOr([]))
  }

  /**
   * One of the nine blocks of `process`, for annotation `t`: nothing without
   * the annotation, one route for a compatible method, an exception otherwise.
   */
  function TagStep(instance: Service, clazz: JavaClass, m: JavaMethod, t: Tag): Outcome
  {
    match IsCompatible(m, TagType(t), RequiredParameters)
    case Throws(e) => Outcome([], Some(e))
    case Ok(compatible) =>
      if compatible then Outcome([RouteFor(instance, clazz, m, t)], None) else Outcome([], None)
  }

  /**
   * The specification of `process` over the annotations `tags`, checked in
   * order: the blocks run one after another until one throws.
   */
  function ProcessTags(instance: Service, clazz: JavaClass, m: JavaMethod, tags: seq<Tag>): Outcome
    decreases |tags|
  {
    if tags == [] then Outcome([], None)
    else
      var before := ProcessTags(instance, clazz, m, tags[..|tags| - 1]);
      if before.thrown.Some? then before
      else Then(before.registered, TagStep(instance, clazz, m, tags[|tags| - 1]))
  }

  /** The outcome of a run that registered `done` and then went on as `next`. */
  function Then(done: seq<Route>, next: Outcome): Outcome {
    Outcome(done + next.registered, next.thrown)
  }

  function ProcessOutcome(instance: Service, clazz: JavaClass, m: JavaMethod): Outcome {
    ProcessTags(instance, clazz, m, TagOrder)
  }

  /** Once a block has thrown, the blocks after it change nothing. */
  lemma {:induction false} ProcessTagsStopped(instance: Service, clazz: JavaClass, m: JavaMethod, tags: seq<Tag>, k: nat)
    requires k <= |tags| && ProcessTags(instance, clazz, m, tags[..k]).thrown.Some?
    ensures ProcessTags(instance, clazz, m, tags) == ProcessTags(instance, clazz, m, tags[..k])
    decreases |tags| - k
  {
    if k < |tags| {
      assert tags[..k + 1][..k] == tags[..k];
      ProcessTagsStopped(instance, clazz, m, tags, k + 1);
    } else {
      assert tags[..k] == tags;
    }
  }

  // ---------------------------------------------------------------------------
  // The resolver's imperative operations

  /**
   * `process(router, instance, clazz, method)`. The source writes the nine
   * annotation blocks out one after another; the loop runs them in the same
   * order. A thrown exception is returned in `thrown`.
   */
  method Process(router: Router, instance: Service, clazz: JavaClass, m: JavaMethod)
    returns (thrown: Option<Throwable>)
    modifies router
    ensures router.routes == old(router.routes) + ProcessOutcome(instance, clazz, m).registered
    ensures thrown == ProcessOutcome(instance, clazz, m).thrown
  {
    var servicePath := GetServicePath(clazz);
    for i := 0 to |TagOrder|
      invariant router.routes == old(router.routes) + ProcessTags(instance, clazz, m, TagOrder[..i]).registered
      invariant ProcessTags(instance, clazz, m, TagOrder[..i]).thrown.None?
    {
      ghost var before := ProcessTags(instance, clazz, m, TagOrder[..i]).registered;
      thrown := ProcessTag(router, instance, clazz, m, TagOrder[i], servicePath);
      assert TagOrder[..i + 1][..i] == TagOrder[..i];
      AppendAssociative(old(router.routes), before, TagStep(instance, clazz, m, TagOrder[i]).registered);
      if thrown.Some? {
        ProcessTagsStopped(instance, clazz, m, TagOrder, i + 1);
        return;
      }
    }
    assert TagOrder[..|TagOrder|] == TagOrder;
    return None;
  }

  /** One block of `process`: the checks and registration for annotation `tag`. */
  method ProcessTag(router: Router, instance: Service, clazz: JavaClass, m: JavaMethod, tag: Tag, servicePath: string)
    returns (thrown: Option<Throwable>)
    requires servicePath == GetServicePath(clazz)
    modifies router
    ensures router.routes == old(router.routes) + TagStep(instance, clazz, m, tag).registered
    ensures thrown == TagStep(instance, clazz, m, tag).thrown
  {
    var compatible := IsCompatible(m, TagType(tag), RequiredParameters);
    if compatible.Throws? {
      return Some(compatible.error);
    }
    if compatible.value {
      var methodHandle := GetMethodHandle(m, RequiredParameters).value.value;
      var path := servicePath + GetMethodAnnotation(m, TagType(tag)).value.value;
      var route := router.Register(VerbOf(tag), path, Wrap(instance, methodHandle));
      AndRouteBasedContentType(router, route, clazz, m);
      ghost var expected := RouteFor(instance, clazz, m, tag);
      assert expected == Route(VerbOf(tag), path, Wrap(instance, methodHandle),
                               [] + GetProduces(clazz, m).GetOr([]), [] + GetConsumes(clazz, m).GetOr([]));
      assert router.routes == (old(router.routes) + [Route(VerbOf(tag), path, Wrap(instance, methodHandle), [], [])])[route := expected];
      assert router.routes == old(router.routes) + [expected];
    }
    return None;
  }

  /**
   * `andRouteBasedContentType`: adds the produces filters, then the consumes
   * filters, each in array order, to route `route` and to no other.
   */
  method AndRouteBasedContentType(router: Router, route: nat, clazz: JavaClass, m: JavaMethod)
    requires route < |router.routes|
    modifies router
    ensures router.routes == old(router.routes)[route := old(router.routes)[route].(
      produces := old(router.routes)[route].produces + GetProduces(clazz, m).GetOr([]),
      consumes := old(router.routes)[route].consumes + GetConsumes(clazz, m).GetOr([]))]
  {
    var produces := GetProduces(clazz, m);
    var consumes := GetConsumes(clazz, m);
    ghost var base := router.routes[route];
    if produces.Some? {
      assert base.produces + produces.value[..0] == base.produces;
      for i := 0 to |produces.value|
        invariant router.routes == old(router.routes)[route := base.(produces := base.produces + produces.value[..i])]
      {
        router.Produces(route, produces.value[i]);
        assert base.produces + produces.value[..i + 1] == base.produces + produces.value[..i] + [produces.value[i]];
      }
      assert produces.value[..|produces.value|] == produces.value;
    } else {
      assert base.produces + [] == base.produces;
    }
    ghost var filtered := router.routes[route];
    assert router.routes == old(router.routes)[route := filtered];
    if consumes.Some? {
      assert filtered.consumes + consumes.value[..0] == filtered.consumes;
      for i := 0 to |consumes.value|
        invariant router.routes == old(router.routes)[route := filtered.(consumes := filtered.consumes + consumes.value[..i])]
      {
        router.Consumes(route, consumes.value[i]);
        assert filtered.consumes + consumes.value[..i + 1] == filtered.consumes + consumes.value[..i] + [consumes.value[i]];
      }
      assert consumes.value[..|consumes.value|] == consumes.value;
    } else {
      assert filtered.consumes + [] == filtered.consumes;
    }
  }

  /** What the wrapped handler does to a context. */
  function HandlerEvents(h: RequestHandler, acceptable: Option<string>, behaviour: Option<Throwable>): seq<ContextEvent>
  {
    (if acceptable.Some? then [HeaderPut(ContentTypeHeader, acceptable.value)] else [])
    + [Invoked(h.instance, h.target)]
    + (if behaviour.Some? then [Failed(behaviour.value)] else [])
  }

  /**
   * The lambda returned by `wrap`, applied to a context: set the negotiated
   * content type, invoke the target, and send anything it throws to
   * `ctx.fail`. It has no way to throw: nothing escapes.
   */
  method Handle(h: RequestHandler, ctx: RoutingContext, behaviour: Option<Throwable>)
    modifies ctx
    ensures ctx.events == old(ctx.events) + HandlerEvents(h, ctx.acceptableContentType, behaviour)
  {
    var acceptableContentType := ctx.acceptableContentType;
    if acceptableContentType.Some? {
      ctx.PutHeader(ContentTypeHeader, acceptableContentType.value);
    }
    var thrown := Invoke(h.target, h.instance, ctx, behaviour);
    if thrown.Some? {
      ctx.Fail(thrown.value);
    }
  }
}
