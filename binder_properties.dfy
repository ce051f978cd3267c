/**
 * What `bind` does, stated over the calls it makes: one call per
 * (service, method, resolver) triple in lexicographic order, with no
 * de-duplication, and fail-fast with earlier registrations kept.
 */
module BinderProperties {
  import opened Wrappers
  import opened JavaModel
  import opened Vertx
  import opened RouteBinder

  /** The number of triples: for each service, its methods times the resolvers. */
  function CallCount(services: seq<Service>, resolverCount: nat): nat
    decreases |services|
  {
    if services == [] then 0
    else CallCount(services[..|services| - 1], resolverCount)
         + |services[|services| - 1].runtimeClass.methods| * resolverCount
  }

  lemma {:induction false} MethodCallsLength(service: Service, methods: seq<JavaMethod>, resolvers: seq<RouteResolver>)
    ensures |MethodCalls(service, methods, resolvers)| == |methods| * |resolvers|
    decreases |methods|
  {
    if methods != [] {
      MethodCallsLength(service, methods[..|methods| - 1], resolvers);
      assert (|methods| - 1) * |resolvers| + |resolvers| == |methods| * |resolvers|;
    }
  }

  /** Within one service, the calls go method by method and, within a method, resolver by resolver. */
  lemma {:induction false} MethodCallsAt(service: Service, methods: seq<JavaMethod>, resolvers: seq<RouteResolver>, j: nat, k: nat)
    requires j < |methods| && k < |resolvers|
    ensures 0 <= j * |resolvers| + k < |MethodCalls(service, methods, resolvers)|
    ensures MethodCalls(service, methods, resolvers)[j * |resolvers| + k] == Call(service, methods[j], resolvers[k])
    decreases |methods|
  {
    var init := methods[..|methods| - 1];
    MethodCallsLength(service, init, resolvers);
    MethodCallsLength(service, methods, resolvers);
    if j < |init| {
      MethodCallsAt(service, init, resolvers, j, k);
    } else {
      assert j * |resolvers| == |MethodCalls(service, init, resolvers)|;
    }
  }

  lemma {:induction false} BindCallsLength(services: seq<Service>, resolvers: seq<RouteResolver>)
    ensures |BindCalls(services, resolvers)| == CallCount(services, |resolvers|)
    decreases |services|
  {
    if services != [] {
      BindCallsLength(services[..|services| - 1], resolvers);
      MethodCallsLength(services[|services| - 1], services[|services| - 1].runtimeClass.methods, resolvers);
    }
  }

  /**
   * `bind` makes exactly one call per (service, method, resolver) triple,
   * in lexicographic order: the call for service i, method j and resolver k
   * comes after all the calls of the services before i, j * |resolvers| + k
   * calls into those of service i. A service or resolver listed twice is
   * called twice.
   */
  lemma BindEnumeratesTriples(services: seq<Service>, resolvers: seq<RouteResolver>, i: nat, j: nat, k: nat)
    requires i < |services| && j < |services[i].runtimeClass.methods| && k < |resolvers|
    ensures var n := CallCount(services[..i], |resolvers|) + j * |resolvers| + k;
      n < |BindCalls(services, resolvers)| &&
      BindCalls(services, resolvers)[n] == Call(services[i], services[i].runtimeClass.methods[j], resolvers[k])
  {
    var before := BindCalls(services[..i], resolvers);
    var own := ServiceCalls(services[i], resolvers);
    var offset := j * |resolvers| + k;
    MethodCallsAt(services[i], services[i].runtimeClass.methods, resolvers, j, k);
    BindCallsLength(services[..i], resolvers);
    BindCallsPrefix(services, resolvers, i + 1);
    BindCallsSplit(services, resolvers, i);
    PrefixIndex(BindCalls(services, resolvers), before, own, offset);
  }

  lemma PrefixIndex<T>(all: seq<T>, before: seq<T>, own: seq<T>, offset: nat)
    requires before + own <= all && offset < |own|
    ensures |before| + offset < |all| && all[|before| + offset] == own[offset]
  {
    assert all[|before| + offset] == (before + own)[|before| + offset];
  }

  lemma BindCallsSplit(services: seq<Service>, resolvers: seq<RouteResolver>, i: nat)
    requires i < |services|
    ensures BindCalls(services[..i + 1], resolvers) == BindCalls(services[..i], resolvers) + ServiceCalls(services[i], resolvers)
  {
    var upTo := services[..i + 1];
    assert upTo[..i] == services[..i];
  }

  /**
   * Fail-fast: when call n is the first to throw, its exception escapes,
   * the registrations of the calls before it (and its own) stay, and no
   * later call is made.
   */
  lemma FailFast(calls: seq<Call>, n: nat)
    requires n < |calls|
    requires RunCalls(calls[..n]).thrown.None? && ResolveCall(calls[n]).thrown.Some?
    ensures RunCalls(calls) ==
      Outcome(RunCalls(calls[..n]).registered + ResolveCall(calls[n]).registered, ResolveCall(calls[n]).thrown)
  {
    var done := calls[..n];
    var c := calls[n];
    SnocPrefix(calls, n);
    RunSnoc(done, c);
    StoppedByPrefix(done + [c], calls);
  }

  lemma SnocPrefix<T>(s: seq<T>, n: nat)
    requires n < |s|
    ensures s[..n] + [s[n]] <= s
  {
    assert s[..n] + [s[n]] == s[..n + 1];
  }

  /** An exception escaping the run comes from a call that ran after no earlier call threw. */
  lemma {:induction false} ThrownHasSource(calls: seq<Call>)
    requires RunCalls(calls).thrown.Some?
    ensures exists n :: 0 <= n < |calls| && RunCalls(calls[..n]).thrown.None? && ResolveCall(calls[n]).thrown.Some?
    decreases |calls|
  {
    var init := calls[..|calls| - 1];
    if RunCalls(init).thrown.Some? {
      ThrownHasSource(init);
      var n :| 0 <= n < |init| && RunCalls(init[..n]).thrown.None? && ResolveCall(init[n]).thrown.Some?;
      assert init[..n] == calls[..n];
    } else {
      assert calls[..|calls| - 1] == init;
    }
  }

  /** Nothing is rolled back: what a prefix of the calls registered stays at the front. */
  lemma RegistrationsKept(calls: seq<Call>, n: nat)
    requires n <= |calls|
    ensures RunCalls(calls[..n]).registered <= RunCalls(calls).registered
  {
    assert calls == calls[..n] + calls[n..];
    RunAppend(calls[..n], calls[n..]);
  }

  /** Everything the calls would register, one after another. */
  function AllRegistered(calls: seq<Call>): seq<Route>
    decreases |calls|
  {
    if calls == [] then [] else AllRegistered(calls[..|calls| - 1]) + ResolveCall(calls[|calls| - 1]).registered
  }

  /** The run completes without exception exactly when no call throws. */
  lemma {:induction false} CompleteRun(calls: seq<Call>)
    ensures RunCalls(calls).thrown.None? <==> forall n :: 0 <= n < |calls| ==> ResolveCall(calls[n]).thrown.None?
    decreases |calls|
  {
    if calls != [] {
      var init := calls[..|calls| - 1];
      CompleteRun(init);
      if RunCalls(calls).thrown.None? {
        forall n | 0 <= n < |calls| ensures ResolveCall(calls[n]).thrown.None? {
          if n < |init| {
            assert calls[n] == init[n];
          }
        }
      } else if RunCalls(init).thrown.Some? {
        ThrownHasSource(init);
        var n :| 0 <= n < |init| && RunCalls(init[..n]).thrown.None? && ResolveCall(init[n]).thrown.Some?;
        assert calls[n] == init[n];
      }
    }
  }

  /** A run that completes without exception registers every call's routes, in call order. */
  lemma {:induction false} CompleteRunRegistersAll(calls: seq<Call>)
    requires RunCalls(calls).thrown.None?
    ensures RunCalls(calls).registered == AllRegistered(calls)
    decreases |calls|
  {
    if calls != [] {
      CompleteRunRegistersAll(calls[..|calls| - 1]);
    }
  }
}
