/**
 * SessionRequestProxy: wraps a bass session. Its own `managerFactory` is a
 * ManagerFactoryRequestProxy, so the session's members, called through the
 * proxy, create managers bound to the request.
 */
module SessionProxies {
  import opened Js
  import opened Containers
  import opened RequestProxies
  import opened ManagerFactoryProxies

  /** The names on the class's prototype chain. */
  const SessionProxyMethods: set<string> := RequestProxyMethods + ObjectPrototypeNames

  /** The own data properties the constructor assigns before wrapping: the
      factory proxy and a fresh, empty `managers` object. */
  function SessionFields(factory: ManagerFactoryRequestProxy): (own: map<string, Value>)
    ensures own.Keys == {"managerFactory", "managers"}
    ensures own["managerFactory"] == Ref(factory) && own["managers"] == Rec(map[])
  {
    map["managerFactory" := Ref(factory), "managers" := Rec(map[])]
  }

  class SessionRequestProxy {
    /** The RequestProxy part: own data properties and getters forwarding to the session. */
    const base: RequestProxy
    /** `this.managerFactory` */
    const managerFactory: ManagerFactoryRequestProxy

    /** The constructor once `session.managerFactory` has been read and
        wrapped: the factory proxy and an empty `managers` become own data
        properties, which the session's own members of those names therefore
        do not replace, and then the session is wrapped. */
    constructor(session: Value, factory: ManagerFactoryRequestProxy, request: Value, container: Container)
      ensures fresh(base) && base.Valid() && base.methods == SessionProxyMethods
      ensures managerFactory == factory
      ensures base.fields == Own(request, container, SessionFields(factory)) - base.forwarded
      ensures IsObject(session) ==>
        base.target == session && base.forwarded == Forwarded(SessionProxyMethods, Own(request, container, SessionFields(factory)), session)
      ensures !IsObject(session) ==> base.forwarded == {}
    {
      var proxy := NewWrapped(request, container, SessionProxyMethods, SessionFields(factory), session);
      base := proxy;
      managerFactory := factory;
    }
  }

  /** `new SessionRequestProxy(session, request, container)`: reading
      `session.managerFactory` throws on an `undefined` or `null` session;
      otherwise the factory it names is wrapped for the same request and
      container, and so is the session. The session is never written. */
  method NewSessionProxy(session: Value, request: Value, container: Container, library: Library)
    returns (r: Completion<SessionRequestProxy>)
    ensures r.Throw? <==> session.Undefined? || session.Null?
    ensures r.Throw? ==> r.error == TypeError
    ensures r.Normal? ==>
      && fresh(r.value) && fresh(r.value.base) && fresh(r.value.managerFactory) && fresh(r.value.managerFactory.base)
      && r.value.managerFactory.managerFactory == Read(session, "managerFactory")
      && r.value.managerFactory.container == container && r.value.managerFactory.library == library
      && r.value.managerFactory.base.fields
           == Own(request, container, ManagerFactoryRequestProxy.OwnFields(Read(session, "managerFactory"))) - r.value.managerFactory.base.forwarded
      && r.value.base.fields == Own(request, container, SessionFields(r.value.managerFactory)) - r.value.base.forwarded
    ensures r.Normal? && IsObject(session) ==>
      && r.value.base.target == session
      && r.value.base.forwarded == Forwarded(SessionProxyMethods, Own(request, container, SessionFields(r.value.managerFactory)), session)
    ensures r.Normal? && !IsObject(session) ==> r.value.base.forwarded == {}
  {
    var factory := PropertyOf(session, "managerFactory");
    if factory.Throw? {
      return Throw(factory.error);
    }
    var wrapped := new ManagerFactoryRequestProxy(factory.value, request, container, library);
    var proxy := new SessionRequestProxy(session, wrapped, request, container);
    r := Normal(proxy);
  }
}
