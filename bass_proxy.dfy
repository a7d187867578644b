/**
 * BassRequestProxy: wraps the global bass instance for one request; the
 * sessions it creates come back wrapped in SessionRequestProxy objects.
 */
module BassProxies {
  import opened Js
  import opened Containers
  import opened RequestProxies
  import opened SessionProxies

  /** The names on the class's prototype chain. */
  const BassProxyMethods: set<string> := RequestProxyMethods + ObjectPrototypeNames + {"createSession"}

  class BassRequestProxy {
    /** The RequestProxy part: own data properties and getters forwarding to bass. */
    const base: RequestProxy
    /** `this._bass` */
    const bass: Value
    /** `this._container` */
    const container: Container
    /** The bass library `bass` belongs to. */
    const library: Library

    /** The own data properties the constructor assigns before wrapping. */
    static function OwnFields(bass: Value): map<string, Value>
    {
      map["_bass" := bass]
    }

    /** `new BassRequestProxy(bass, request, container)` */
    constructor(bass: Value, request: Value, container: Container, library: Library)
      ensures fresh(base) && base.Valid() && base.methods == BassProxyMethods
      ensures this.bass == bass && this.container == container && this.library == library
      ensures base.fields == Own(request, container, OwnFields(bass)) - base.forwarded
      ensures IsObject(bass) ==>
        base.target == bass && base.forwarded == Forwarded(BassProxyMethods, Own(request, container, OwnFields(bass)), bass)
      ensures !IsObject(bass) ==> base.forwarded == {}
    {
      var proxy := NewWrapped(request, container, BassProxyMethods, OwnFields(bass), bass);
      base := proxy;
      this.bass := bass;
      this.container := container;
      this.library := library;
    }

    /** `createSession()`: bass's own `createSession` is called once, with no
        arguments, and the session it returns is wrapped for this proxy's
        request and container; a throw, or a session whose `managerFactory`
        cannot be read, is thrown on. */
    method CreateSession() returns (r: Completion<SessionRequestProxy>)
      modifies library
      ensures var member := old(PropertyOf(bass, "createSession"));
        var create := Invocation(bass, Call("createSession", []));
        var answer := library.answer(|old(library.log)|, create);
        && (!(member.Normal? && member.value.Fn?) ==> r == Throw(TypeError) && library.log == old(library.log))
        && (member.Normal? && member.value.Fn? ==>
              && library.log == old(library.log) + [create]
              && (answer.Err? ==> r == Throw(answer.error))
              && (answer.Ok? && answer.value in {Undefined, Null} ==> r == Throw(TypeError))
              && (answer.Ok? && answer.value !in {Undefined, Null} ==>
                    && r.Normal? && fresh(r.value)
                    && r.value.managerFactory.managerFactory == Read(answer.value, "managerFactory")
                    && r.value.managerFactory.container == container && r.value.managerFactory.library == library
                    && r.value.base.fields
                         == Own(old(base.Get("_request")), container, SessionFields(r.value.managerFactory)) - r.value.base.forwarded
                    && (IsObject(answer.value) ==> r.value.base.target == answer.value)))
    {
      var request := base.Get("_request");
      var session := CallSync(library, bass, Call("createSession", []));
      if session.Throw? {
        return Throw(session.error);
      }
      r := NewSessionProxy(session.value, request, container, library);
    }
  }
}
