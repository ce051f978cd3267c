/**
 * What `process` of the annotation-driven resolver registers, stated in
 * closed form: the annotations a method carries, in the fixed order, and
 * whether its signature is usable decide everything.
 */
module ResolverProperties {
  import opened Wrappers
  import opened JavaModel
  import opened Vertx
  import opened AnnotationRouteResolver

  /** The route annotations in `tags` that the lookup sees on `m`, in the order of `tags`. */
  ghost function PresentTags(m: JavaMethod, tags: seq<Tag>): seq<Tag>
    decreases |tags|
  {
    if tags == [] then []
    else
      var t := tags[|tags| - 1];
      PresentTags(m, tags[..|tags| - 1]) + if MethodDeclares(m, TagType(t)) then [t] else []
  }

  /** One route per tag, in order. */
  ghost function RoutesFor(instance: Service, clazz: JavaClass, m: JavaMethod, tags: seq<Tag>): seq<Route>
    requires forall t :: t in tags ==> MethodDeclares(m, TagType(t))
  {
    seq(|tags|, i requires 0 <= i < |tags| => RouteFor(instance, clazz, m, tags[i]))
  }

  /** The position of a tag in the order `process` checks them. */
  function TagRank(t: Tag): nat {
    match t
    case Get => 0
    case Post => 1
    case Put => 2
    case Delete => 3
    case Connect => 4
    case Options => 5
    case Head => 6
    case Patch => 7
    case Path => 8
  }

  /** The independent description of what `process` does for the annotations `tags`. */
  ghost function ExpectedOutcome(instance: Service, clazz: JavaClass, m: JavaMethod, tags: seq<Tag>): Outcome
  {
    var present := PresentTags(m, tags);
    PresentTagsMembers(m, tags);
    if present == [] then Outcome([], None)
    else if !SignatureCompatible(m.parameterTypes, RequiredParameters) then
      Outcome([], Some(RuntimeException(SignatureMessage)))
    else if !m.accessible then Outcome([], Some(AccessDenied(m.name)))
    else Outcome(RoutesFor(instance, clazz, m, present), None)
  }

  /** The present tags are exactly the tags of `tags` that the lookup sees. */
  lemma {:induction false} PresentTagsMembers(m: JavaMethod, tags: seq<Tag>)
    ensures forall t :: t in PresentTags(m, tags) <==> t in tags && MethodDeclares(m, TagType(t))
    decreases |tags|
  {
    if tags != [] {
      var init := tags[..|tags| - 1];
      PresentTagsMembers(m, init);
      assert tags == init + [tags[|tags| - 1]];
    }
  }

  /** Tags in strictly increasing rank: ordered and without repetition. */
  predicate Ranked(tags: seq<Tag>) {
    forall i, j :: 0 <= i < j < |tags| ==> TagRank(tags[i]) < TagRank(tags[j])
  }

  /** The present tags keep the order of `tags`. */
  lemma {:induction false} PresentTagsOrdered(m: JavaMethod, tags: seq<Tag>)
    requires Ranked(tags)
    ensures Ranked(PresentTags(m, tags))
    decreases |tags|
  {
    if tags != [] {
      var init := tags[..|tags| - 1];
      var last := tags[|tags| - 1];
      PresentTagsOrdered(m, init);
      PresentTagsMembers(m, init);
      var p := PresentTags(m, init);
      var q := if MethodDeclares(m, TagType(last)) then [last] else [];
      assert PresentTags(m, tags) == p + q;
      forall i, j | 0 <= i < j < |p + q| ensures TagRank((p + q)[i]) < TagRank((p + q)[j]) {
        assert (p + q)[i] == p[i];
        if j < |p| {
          assert (p + q)[j] == p[j];
          assert TagRank(p[i]) < TagRank(p[j]);
        } else {
          assert (p + q)[j] == last;
          assert p[i] in init;
          var k :| 0 <= k < |init| && init[k] == p[i];
          assert tags[k] == p[i];
          assert TagRank(tags[k]) < TagRank(tags[|tags| - 1]);
          assert TagRank(p[i]) < TagRank(last);
        }
      }
    }
  }

  /**
   * `process` registers a route for every route annotation the method
   * carries, or throws at its first one before registering any: the
   * compatibility check does not depend on the annotation.
   */
  lemma {:induction false} ProcessClosedForm(instance: Service, clazz: JavaClass, m: JavaMethod, tags: seq<Tag>)
    ensures ProcessTags(instance, clazz, m, tags) == ExpectedOutcome(instance, clazz, m, tags)
    decreases |tags|
  {
    if tags != [] {
      var init := tags[..|tags| - 1];
      var t := tags[|tags| - 1];
      ProcessClosedForm(instance, clazz, m, init);
      if MethodDeclares(m, TagType(t)) {
        DeclaredStep(instance, clazz, m, init, t);
        assert init + [t] == tags;
      } else {
        UndeclaredStep(instance, clazz, m, tags);
      }
    }
  }

  /** An annotation the method does not carry changes nothing. */
  lemma UndeclaredStep(instance: Service, clazz: JavaClass, m: JavaMethod, tags: seq<Tag>)
    requires tags != [] && !MethodDeclares(m, TagType(tags[|tags| - 1]))
    ensures PresentTags(m, tags) == PresentTags(m, tags[..|tags| - 1])
    ensures ProcessTags(instance, clazz, m, tags) == ProcessTags(instance, clazz, m, tags[..|tags| - 1])
  {
    var before := ProcessTags(instance, clazz, m, tags[..|tags| - 1]);
    TagStepCases(instance, clazz, m, tags[|tags| - 1]);
    assert PresentTags(m, tags) == PresentTags(m, tags[..|tags| - 1]) + [];
    if before.thrown.None? {
      ThenNothing(before);
    }
  }

  /** An annotation the method carries extends the closed form by one step. */
  lemma DeclaredStep(instance: Service, clazz: JavaClass, m: JavaMethod, init: seq<Tag>, t: Tag)
    requires MethodDeclares(m, TagType(t))
    requires ProcessTags(instance, clazz, m, init) == ExpectedOutcome(instance, clazz, m, init)
    ensures ProcessTags(instance, clazz, m, init + [t]) == ExpectedOutcome(instance, clazz, m, init + [t])
  {
    var tags := init + [t];
    assert tags[..|tags| - 1] == init;
    PresentTagsMembers(m, init);
    assert PresentTags(m, tags) == PresentTags(m, init) + [t];
    TagStepCases(instance, clazz, m, t);
    if SignatureCompatible(m.parameterTypes, RequiredParameters) && m.accessible {
      DeclaredAccepted(instance, clazz, m, init, t);
    }
  }

  /** The step of `DeclaredStep` for a method whose signature and access are accepted. */
  lemma DeclaredAccepted(instance: Service, clazz: JavaClass, m: JavaMethod, init: seq<Tag>, t: Tag)
    requires MethodDeclares(m, TagType(t))
    requires SignatureCompatible(m.parameterTypes, RequiredParameters) && m.accessible
    requires ProcessTags(instance, clazz, m, init) == ExpectedOutcome(instance, clazz, m, init)
    ensures ProcessTags(instance, clazz, m, init + [t]) == ExpectedOutcome(instance, clazz, m, init + [t])
  {
    var tags := init + [t];
    assert tags[..|tags| - 1] == init;
    var p := PresentTags(m, init);
    PresentTagsMembers(m, init);
    assert PresentTags(m, tags) == p + [t];
    TagStepCases(instance, clazz, m, t);
    RoutesForSnoc(instance, clazz, m, p, t);
    if p == [] {
      assert [] + [t] == [t];
      assert [] + [RouteFor(instance, clazz, m, t)] == [RouteFor(instance, clazz, m, t)];
    }
  }

  /** One more carried annotation adds its route at the end. */
  lemma RoutesForSnoc(instance: Service, clazz: JavaClass, m: JavaMethod, tags: seq<Tag>, t: Tag)
    requires forall u :: u in tags + [t] ==> MethodDeclares(m, TagType(u))
    ensures RoutesFor(instance, clazz, m, tags + [t]) == RoutesFor(instance, clazz, m, tags) + [RouteFor(instance, clazz, m, t)]
  {
    var longer := RoutesFor(instance, clazz, m, tags + [t]);
    var shorter := RoutesFor(instance, clazz, m, tags);
    forall i | 0 <= i < |tags| ensures longer[i] == shorter[i] {
      assert (tags + [t])[i] == tags[i];
    }
    assert longer[|tags|] == RouteFor(instance, clazz, m, t);
  }

  /** What one annotation test contributes, by case. */
  lemma TagStepCases(instance: Service, clazz: JavaClass, m: JavaMethod, t: Tag)
    ensures var step := TagStep(instance, clazz, m, t);
      var sig := SignatureCompatible(m.parameterTypes, RequiredParameters);
      && (!MethodDeclares(m, TagType(t)) ==> step == Outcome([], None))
      && (MethodDeclares(m, TagType(t)) && !sig ==> step == Outcome([], Some(RuntimeException(SignatureMessage))))
      && (MethodDeclares(m, TagType(t)) && sig && !m.accessible ==> step == Outcome([], Some(AccessDenied(m.name))))
      && (MethodDeclares(m, TagType(t)) && sig && m.accessible ==>
            step == Outcome([RouteFor(instance, clazz, m, t)], None))
  {
  }

  lemma ThenNothing(o: Outcome)
    requires o.thrown.None?
    ensures Then(o.registered, Outcome([], None)) == o
  {
    assert o.registered + [] == o.registered;
  }

  /**
   * All or nothing per method: an exception means no route was registered for
   * the method, and it is raised exactly when the method carries a route
   * annotation but its signature is not usable.
   */
  lemma ProcessAllOrNothing(instance: Service, clazz: JavaClass, m: JavaMethod)
    ensures var outcome := ProcessOutcome(instance, clazz, m);
      var present := PresentTags(m, TagOrder);
      && (outcome.thrown.Some? ==> outcome.registered == [])
      && (outcome.thrown.Some? <==>
            present != [] && !(SignatureCompatible(m.parameterTypes, RequiredParameters) && m.accessible))
      && (present != [] && !SignatureCompatible(m.parameterTypes, RequiredParameters) ==>
            outcome.thrown == Some(RuntimeException(SignatureMessage)))
      && (present == [] ==> outcome == Outcome([], None))
  {
    ProcessClosedForm(instance, clazz, m, TagOrder);
  }

  /**
   * A method that can be bound gets exactly one route per route annotation it
   * carries, in the fixed annotation order, each with the annotation's verb
   * (ANY for `Path`), the path prefix + annotation value, a handler around the
   * method, and the effective produces and consumes lists.
   */
  lemma RegistrationsFollowTagOrder(instance: Service, clazz: JavaClass, m: JavaMethod)
    requires ProcessOutcome(instance, clazz, m).thrown.None?
    ensures var routes := ProcessOutcome(instance, clazz, m).registered;
      var present := PresentTags(m, TagOrder);
      && |routes| == |present|
      && (forall t :: t in present <==> MethodDeclares(m, TagType(t)))
      && Ranked(present)
      && (forall i :: 0 <= i < |routes| ==>
            && routes[i].verb == VerbOf(present[i])
            && GetServicePath(clazz) <= routes[i].path
            && IsFirstOfType(m.annotations, TagType(present[i]),
                             TagAnnotation(present[i], routes[i].path[|GetServicePath(clazz)|..]))
            && routes[i].handler == Wrapped(instance, MethodHandle(m))
            && routes[i].produces == GetProduces(clazz, m).GetOr([])
            && routes[i].consumes == GetConsumes(clazz, m).GetOr([]))
  {
    ProcessClosedForm(instance, clazz, m, TagOrder);
    PresentTagsMembers(m, TagOrder);
    TagOrderRanked();
    PresentTagsOrdered(m, TagOrder);
    var present := PresentTags(m, TagOrder);
    TagOrderComplete();
  }

  /** Every route annotation is checked. */
  lemma TagOrderComplete()
    ensures forall t :: t in TagOrder
  {
    forall t ensures t in TagOrder {
      assert TagOrder[TagRank(t)] == t;
    }
  }

  /** The annotations are checked in rank order. */
  lemma TagOrderRanked()
    ensures Ranked(TagOrder)
  {
    forall i | 0 <= i < |TagOrder| ensures TagRank(TagOrder[i]) == i {
    }
  }

  /** A static or non-public method is skipped: no route and no exception. */
  lemma SkippedMethodIgnored(instance: Service, clazz: JavaClass, m: JavaMethod)
    requires m.isStatic || !m.isPublic
    ensures ProcessOutcome(instance, clazz, m) == Outcome([], None)
  {
    ProcessClosedForm(instance, clazz, m, TagOrder);
    NothingPresent(m, TagOrder);
  }

  /** A method on which the lookup sees no route annotation has no present tags. */
  lemma {:induction false} NothingPresent(m: JavaMethod, tags: seq<Tag>)
    requires forall t :: t in tags ==> !MethodDeclares(m, TagType(t))
    ensures PresentTags(m, tags) == []
    decreases |tags|
  {
    if tags != [] {
      NothingPresent(m, tags[..|tags| - 1]);
      assert tags[|tags| - 1] in tags;
    }
  }

  /**
   * With a single routing-context parameter required, a signature is usable
   * iff it has one parameter that is the routing context, one of its
   * subtypes, or exactly `Object`.
   */
  lemma ContextParameterRule(params: seq<JavaType>)
    ensures SignatureCompatible(params, RequiredParameters) <==>
      |params| == 1 &&
      (params[0].name == RoutingContextType.name || RoutingContextType.name in params[0].supertypes ||
       params[0].name == ObjectTypeName)
  {
  }

  /** The check runs in the subtype direction: a proper supertype of the required type, other than `Object`, is refused. */
  lemma SupertypeRefused(required: JavaType, p: JavaType)
    requires p.name in required.supertypes && p.name != required.name
    requires required.name !in p.supertypes && p.name != ObjectTypeName
    ensures !SignatureCompatible([p], [required])
  {
    assert !Accepts([required][0], [p][0]);
  }

  /** How many times the target was invoked. */
  function InvocationCount(events: seq<ContextEvent>): nat {
    if events == [] then 0 else (if events[0].Invoked? then 1 else 0) + InvocationCount(events[1..])
  }

  /** How many times the context was failed. */
  function FailureCount(events: seq<ContextEvent>): nat {
    if events == [] then 0 else (if events[0].Failed? then 1 else 0) + FailureCount(events[1..])
  }

  /** How many times a response header was written. */
  function HeaderCount(events: seq<ContextEvent>): nat {
    if events == [] then 0 else (if events[0].HeaderPut? then 1 else 0) + HeaderCount(events[1..])
  }

  lemma {:induction false} CountsAppend(a: seq<ContextEvent>, b: seq<ContextEvent>)
    ensures HeaderCount(a + b) == HeaderCount(a) + HeaderCount(b)
    ensures InvocationCount(a + b) == InvocationCount(a) + InvocationCount(b)
    ensures FailureCount(a + b) == FailureCount(a) + FailureCount(b)
    decreases |a|
  {
    if a != [] {
      CountsAppend(a[1..], b);
      assert (a + b)[1..] == a[1..] + b;
    } else {
      assert a + b == b;
    }
  }

  /**
   * The wrapped handler invokes its target exactly once; it writes the
   * content type header, once and first, exactly when one was negotiated,
   * and writes no header otherwise; it fails
   * the context once, after the invocation and with the thrown exception,
   * exactly when the target threw, and never otherwise.
   */
  lemma HandlerContract(h: RequestHandler, acceptable: Option<string>, behaviour: Option<Throwable>)
    ensures var events := HandlerEvents(h, acceptable, behaviour);
      && InvocationCount(events) == 1
      && HeaderCount(events) == (if acceptable.Some? then 1 else 0)
      && FailureCount(events) == (if behaviour.Some? then 1 else 0)
      && (acceptable.Some? ==>
            events[0] == HeaderPut(ContentTypeHeader, acceptable.value) && events[1] == Invoked(h.instance, h.target))
      && (acceptable.None? ==> events[0] == Invoked(h.instance, h.target))
      && (behaviour.Some? ==> events[|events| - 1] == Failed(behaviour.value))
      && (forall e :: Failed(e) in events ==> behaviour == Some(e))
  {
    var header: seq<ContextEvent> := if acceptable.Some? then [HeaderPut(ContentTypeHeader, acceptable.value)] else [];
    var failure: seq<ContextEvent> := if behaviour.Some? then [Failed(behaviour.value)] else [];
    CountsAppend(header, [Invoked(h.instance, h.target)]);
    CountsAppend(header + [Invoked(h.instance, h.target)], failure);
  }
}
