/**
 * ManagerFactoryRequestProxy: wraps the session's manager factory so that
 * every manager it creates comes back wrapped in a ManagerRequestProxy bound
 * to the same request and scoped container.
 */
module ManagerFactoryProxies {
  import opened Js
  import opened Containers
  import opened RequestProxies
  import opened ManagerProxies

  /** The names on the class's prototype chain. */
  const ManagerFactoryProxyMethods: set<string> := RequestProxyMethods + ObjectPrototypeNames + {"factory"}

  class ManagerFactoryRequestProxy {
    /** The RequestProxy part: own data properties and getters forwarding to the factory. */
    const base: RequestProxy
    /** `this._managerFactory` */
    const managerFactory: Value
    /** `this._container` */
    const container: Container
    /** The bass library the factory belongs to. */
    const library: Library

    /** The own data properties the constructor assigns before wrapping. */
    static function OwnFields(managerFactory: Value): map<string, Value>
    {
      map["_managerFactory" := managerFactory]
    }

    /** `new ManagerFactoryRequestProxy(managerFactory, request, container)` */
    constructor(managerFactory: Value, request: Value, container: Container, library: Library)
      ensures fresh(base) && base.Valid() && base.methods == ManagerFactoryProxyMethods
      ensures this.managerFactory == managerFactory && this.container == container && this.library == library
      ensures base.fields == Own(request, container, OwnFields(managerFactory)) - base.forwarded
      ensures IsObject(managerFactory) ==>
        base.target == managerFactory && base.forwarded == Forwarded(ManagerFactoryProxyMethods, Own(request, container, OwnFields(managerFactory)), managerFactory)
      ensures !IsObject(managerFactory) ==> base.forwarded == {}
    {
      var proxy := NewWrapped(request, container, ManagerFactoryProxyMethods, OwnFields(managerFactory), managerFactory);
      base := proxy;
      this.managerFactory := managerFactory;
      this.container := container;
      this.library := library;
    }

    /** `factory(name, session)`: the underlying factory is called once with
        the same arguments, and the manager it returns is wrapped in a new
        ManagerRequestProxy for this proxy's request and container; whatever
        the factory throws is thrown on. */
    method Factory(args: seq<Value>) returns (r: Completion<ManagerRequestProxy>)
      modifies library
      ensures var member := old(PropertyOf(managerFactory, "factory"));
        var made := Invocation(managerFactory, Call("factory", args));
        var answer := library.answer(|old(library.log)|, made);
        && (!(member.Normal? && member.value.Fn?) ==> r == Throw(TypeError) && library.log == old(library.log))
        && (member.Normal? && member.value.Fn? ==>
              && library.log == old(library.log) + [made]
              && (answer.Err? ==> r == Throw(answer.error))
              && (answer.Ok? && !answer.value.Obj? ==> r == Throw(TypeError))
              && (answer.Ok? && answer.value.Obj? ==>
                    && r.Normal? && fresh(r.value) && fresh(r.value.base)
                    && r.value.manager.proto == answer.value.obj
                    && r.value.repositories.entries == map[]
                    && r.value.library == library
                    && r.value.stopwatch == container.stopwatch && r.value.collector == container.collector
                    && r.value.base.target == answer.value
                    && r.value.base.fields == Own(old(base.Get("_request")), container, r.value.OwnFields()) - r.value.base.forwarded))
    {
      var request := base.Get("_request");
      var m := CallSync(library, managerFactory, Call("factory", args));
      if m.Throw? {
        return Throw(m.error);
      }
      if !m.value.Obj? {
        return Throw(TypeError);
      }
      var proxy := new ManagerRequestProxy(m.value.obj, request, container, library);
      r := Normal(proxy);
    }
  }
}
