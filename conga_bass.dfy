/**
 * The kernel listener's request-scope step: decide whether the `bass`
 * service of a request's scoped container is replaced by a
 * BassRequestProxy, and if so replace it there and in the listener's own
 * `_bass`.
 */
module KernelListener {
  import opened Js
  import opened Containers
  import opened RequestProxies
  import opened BassProxies
  import opened Strings

  /** `frameworkConfig || {}`, then the test
      `scope instanceof Object && scope.request !== undefined`: the framework's
      `scope.request` when the test passes. Reading `scope` off `{}` or off a
      primitive gives `undefined`, so the default needs no case of its own. */
  function FrameworkScopeRequest(frameworkConfig: Value): (r: Option<Value>)
    reads ObjectsOf(frameworkConfig), ObjectsOf(Read(frameworkConfig, "scope"))
    ensures r.Some? <==> IsObject(Read(frameworkConfig, "scope")) && Read(Read(frameworkConfig, "scope"), "request") != Undefined
    ensures r.Some? ==> r.value == Read(Read(frameworkConfig, "scope"), "request")
  {
    var scope := Read(frameworkConfig, "scope");
    if IsObject(scope) && Read(scope, "request") != Undefined then Some(Read(scope, "request")) else None
  }

  /** `value.toLowerCase() === 'true'`: a TypeError for a value that is not a string. */
  function IsTrueText(value: Value): (r: Completion<Value>)
    ensures r.Throw? <==> !value.Str?
    ensures r.Throw? ==> r.error == TypeError
    ensures r.Normal? ==> r.value == Bool(ToLower(value.s) == "true")
  {
    if value.Str? then Normal(Bool(ToLower(value.s) == "true")) else Throw(TypeError)
  }

  /** `scopeEnabled` as onRequestScope computes it: the type test is made on
      the bass configuration's `scope.request`, while the value tested and
      converted is the framework's. */
  function ScopeEnabledAsWritten(bassConfig: Value, frameworkConfig: Value): (r: Completion<Value>)
    reads ObjectsOf(frameworkConfig), ObjectsOf(Read(frameworkConfig, "scope"))
    reads ObjectsOf(bassConfig), ObjectsOf(Read(bassConfig, "scope"))
    ensures FrameworkScopeRequest(frameworkConfig).None? ==> r == Normal(Bool(true))
    ensures r.Throw? ==> r.error == TypeError
    ensures r.Throw? <==>
      && FrameworkScopeRequest(frameworkConfig).Some?
      && (|| bassConfig in {Undefined, Null}
          || Read(bassConfig, "scope") in {Undefined, Null}
          || (Read(Read(bassConfig, "scope"), "request").Str? && !FrameworkScopeRequest(frameworkConfig).value.Str?))
  {
    match FrameworkScopeRequest(frameworkConfig)
    case None => Normal(Bool(true))
    case Some(request) =>
      match PropertyOf(bassConfig, "scope")
      case Throw(e) => Throw(e)
      case Normal(scope) =>
        match PropertyOf(scope, "request")
        case Throw(e) => Throw(e)
        case Normal(tested) => if tested.Str? then IsTrueText(request) else Normal(request)
  }

  /** `scopeEnabled` with the type test made on the framework's own
      `scope.request`: enabled unless the framework configures a request
      scope; a string is compared with "true" ignoring case, any other value
      is taken as it is. Nothing is read from the bass configuration, and
      nothing throws. */
  function ScopeEnabled(frameworkConfig: Value): (r: Value)
    reads ObjectsOf(frameworkConfig), ObjectsOf(Read(frameworkConfig, "scope"))
    ensures FrameworkScopeRequest(frameworkConfig).None? ==> r == Bool(true)
    ensures FrameworkScopeRequest(frameworkConfig).Some? ==> var request := FrameworkScopeRequest(frameworkConfig).value;
      && (request.Str? ==> r == Bool(ToLower(request.s) == "true"))
      && (!request.Str? ==> r == request)
  {
    match FrameworkScopeRequest(frameworkConfig)
    case None => Bool(true)
    case Some(request) => if request.Str? then Bool(ToLower(request.s) == "true") else request
  }

  /** The two readings agree whenever the bass configuration's
      `scope.request` can be read and is a string exactly when the
      framework's is, and whenever the framework configures no request scope. */
  lemma ScopeReadingsAgree(bassConfig: Value, frameworkConfig: Value)
    requires FrameworkScopeRequest(frameworkConfig).Some? ==>
      var bassScope := Read(bassConfig, "scope");
      && bassConfig !in {Undefined, Null} && bassScope !in {Undefined, Null}
      && (Read(bassScope, "request").Str? <==> FrameworkScopeRequest(frameworkConfig).value.Str?)
    ensures ScopeEnabledAsWritten(bassConfig, frameworkConfig) == Normal(ScopeEnabled(frameworkConfig))
  {
  }

  /** The type test on the wrong configuration: a framework request scope of
      "false" with a bass `scope` that has no `request` enables the scope as
      written (the string "false" is truthy), where the framework's setting
      disables it; and a bass configuration without `scope` makes the
      listener throw. */
  lemma ScopeTypeTestMisread()
    ensures var framework := Rec(map["scope" := Rec(map["request" := Str("false")])]);
      && ScopeEnabledAsWritten(Rec(map["scope" := Rec(map[])]), framework) == Normal(Str("false"))
      && Truthy(Str("false"))
      && ScopeEnabled(framework) == Bool(false)
      && ScopeEnabledAsWritten(Rec(map[]), framework).Throw?
  {
    var framework := Rec(map["scope" := Rec(map["request" := Str("false")])]);
    assert FrameworkScopeRequest(framework) == Some(Str("false"));
    assert ToLower("false") == "false";
  }

  /** Whether onRequestScope wraps the service, as written: the scope must
      be enabled by ScopeEnabledAsWritten (whose TypeError passes on), and
      then `request_scope` must be truthy, or be `undefined` with a profiler
      present and enabled. Reading `request_scope` off a missing bass
      configuration throws, but only once the scope is enabled. */
  function WrapDecision(bassConfig: Value, frameworkConfig: Value, hasProfiler: bool, profilerEnabled: bool): (r: Completion<bool>)
    reads ObjectsOf(frameworkConfig), ObjectsOf(Read(frameworkConfig, "scope"))
    reads ObjectsOf(bassConfig), ObjectsOf(Read(bassConfig, "scope"))
    ensures r.Throw? <==>
      || ScopeEnabledAsWritten(bassConfig, frameworkConfig).Throw?
      || (Truthy(ScopeEnabledAsWritten(bassConfig, frameworkConfig).value) && bassConfig in {Undefined, Null})
    ensures r.Throw? ==> r.error == TypeError
    ensures r == Normal(true) <==>
      && ScopeEnabledAsWritten(bassConfig, frameworkConfig).Normal?
      && Truthy(ScopeEnabledAsWritten(bassConfig, frameworkConfig).value)
      && bassConfig !in {Undefined, Null}
      && var requestScope := Read(bassConfig, "request_scope");
         Truthy(requestScope) || (requestScope == Undefined && hasProfiler && profilerEnabled)
  {
    match ScopeEnabledAsWritten(bassConfig, frameworkConfig)
    case Throw(e) => Throw(e)
    case Normal(enabled) =>
      if !Truthy(enabled) then Normal(false)
      else
        match PropertyOf(bassConfig, "request_scope")
        case Throw(e) => Throw(e)
        case Normal(requestScope) =>
          Normal(Truthy(requestScope) || (requestScope == Undefined && hasProfiler && profilerEnabled))
  }

  /** Where the two readings of `scopeEnabled` agree (ScopeReadingsAgree),
      the decision is the one the framework's own setting intends. */
  lemma WrapDecisionIntended(bassConfig: Value, frameworkConfig: Value, hasProfiler: bool, profilerEnabled: bool)
    requires FrameworkScopeRequest(frameworkConfig).Some? ==>
      var bassScope := Read(bassConfig, "scope");
      && bassConfig !in {Undefined, Null} && bassScope !in {Undefined, Null}
      && (Read(bassScope, "request").Str? <==> FrameworkScopeRequest(frameworkConfig).value.Str?)
    ensures var requestScope := Read(bassConfig, "request_scope");
      WrapDecision(bassConfig, frameworkConfig, hasProfiler, profilerEnabled)
        == if !Truthy(ScopeEnabled(frameworkConfig)) then Normal(false)
           else if bassConfig in {Undefined, Null} then Throw(TypeError)
           else Normal(Truthy(requestScope) || (requestScope == Undefined && hasProfiler && profilerEnabled))
  {
    ScopeReadingsAgree(bassConfig, frameworkConfig);
  }

  /** The misread reaches the listener: a framework request scope of "false"
      with a bass `scope` lacking `request` and a truthy `request_scope`
      wraps the service as written, where the framework's setting would not;
      and with no bass `scope` at all the listener throws. */
  lemma WrapDecisionMisread()
    ensures var framework := Rec(map["scope" := Rec(map["request" := Str("false")])]);
      && WrapDecision(Rec(map["scope" := Rec(map[]), "request_scope" := Bool(true)]), framework, false, false) == Normal(true)
      && !Truthy(ScopeEnabled(framework))
      && WrapDecision(Rec(map["request_scope" := Bool(true)]), framework, false, false).Throw?
  {
    var framework := Rec(map["scope" := Rec(map["request" := Str("false")])]);
    assert FrameworkScopeRequest(framework) == Some(Str("false"));
    assert ToLower("false") == "false";
  }

  /** The listener. Its `_bass` is the module's private reference, which
      `bass()` hands out for service injection. */
  class CongaBass {
    var bass: Value

    constructor()
      ensures bass == Null
    {
      bass := Null;
    }

    /** `onRequestScope(event, next)`: when WrapDecision says so, a new
        BassRequestProxy around the container's current `bass` service, for
        the event's request and this container, becomes both the container's
        `bass` service and `_bass`; `next` is then called once. A throw leaves
        everything as it was and does not call `next`. */
    method OnRequestScope(container: Container, request: Value, library: Library, next: Callback) returns (r: Completion<()>)
      modifies this, container, next
      ensures var d := old(WrapDecision(container.bassConfig, container.frameworkConfig, container.hasProfiler, container.profilerEnabled));
        && (d.Throw? ==>
              r == Throw(d.error) && next.calls == old(next.calls) && container.bass == old(container.bass) && bass == old(bass))
        && (d == Normal(false) ==>
              r == Normal(()) && next.calls == old(next.calls) + 1 && container.bass == old(container.bass) && bass == old(bass))
        && (d == Normal(true) ==>
              && r == Normal(()) && next.calls == old(next.calls) + 1
              && bass == container.bass && container.bass.Ref? && container.bass.ref is BassRequestProxy
              && var proxy := container.bass.ref as BassRequestProxy;
              && fresh(proxy)
              && proxy.bass == old(container.bass) && proxy.container == container && proxy.library == library
              && proxy.base.fields == Own(request, container, BassRequestProxy.OwnFields(old(container.bass))) - proxy.base.forwarded)
    {
      var wrap := WrapDecision(container.bassConfig, container.frameworkConfig, container.hasProfiler, container.profilerEnabled);
      if wrap.Throw? {
        return Throw(wrap.error);
      }
      if wrap.value {
        var proxy := new BassRequestProxy(container.bass, request, container, library);
        bass := Ref(proxy);
        container.bass := bass;
      }
      next.Call();
      r := Normal(());
    }
  }
}
