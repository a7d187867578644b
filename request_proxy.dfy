/**
 * RequestProxy: an object that holds the request and the scoped container
 * and forwards, through getters, every member of a wrapped object that it
 * does not define itself.
 */
module RequestProxies {
  import opened Js
  import opened Containers

  /** The names `wrap` walks: `Object.keys(obj)` followed by the own property
      names of the object's immediate prototype. A plain object literal's
      prototype is Object.prototype. The model knows no property names of a
      function or of an object it does not look inside. */
  function WrapNames(obj: Value): (names: set<string>)
    reads ObjectsOf(obj)
    ensures obj.Rec? ==> names == obj.fields.Keys + ObjectPrototypeNames
    ensures obj.Obj? ==> names == obj.obj.props.Keys + obj.obj.protoProps.Keys
    ensures !(obj.Rec? || obj.Obj?) ==> names == {}
  {
    match obj
    case Rec(fields) => fields.Keys + ObjectPrototypeNames
    case Obj(o) => o.KeysAndProtoNames()
    case _ => {}
  }

  /** Whether `this[p]` is `undefined` on a proxy with own data properties
      `fields` and prototype-chain members `methods`, before it has getters. */
  predicate Unset(methods: set<string>, fields: map<string, Value>, p: string)
  {
    if p in fields then fields[p] == Undefined else p !in methods
  }

  /** The names that get a getter when a proxy with own data properties
      `fields` wraps `obj`: those `wrap` lists whose value is `undefined` on
      the proxy. */
  function Forwarded(methods: set<string>, fields: map<string, Value>, obj: Value): set<string>
    reads ObjectsOf(obj)
  {
    set p | p in WrapNames(obj) && Unset(methods, fields, p)
  }

  /** The member names RequestProxy.prototype defines. */
  const RequestProxyMethods: set<string> := {"constructor", "wrap"}

  class RequestProxy {
    /** The names found on the prototype chain: the class's methods, those of
        its base classes, and Object.prototype's; none of them is `undefined`. */
    const methods: set<string>
    /** Own data properties, such as `_request` and `_container`. */
    var fields: map<string, Value>
    /** The object `wrap` was given (`undefined` before that). */
    var target: Value
    /** The names that have a getter reading `target`. */
    var forwarded: set<string>

    /** A name is either a data property or a getter, never both, and getters
        read an object. */
    ghost predicate Valid()
      reads this
    {
      && fields.Keys !! forwarded
      && (forwarded != {} ==> target.Rec? || target.Obj?)
    }

    /** `this[p]`: a getter reads the wrapped object at the time of the read;
        then own data properties; then the prototype chain. */
    function Get(p: string): Value
      reads this, ObjectsOf(target)
    {
      if p in forwarded then Read(target, p)
      else if p in fields then fields[p]
      else if p in methods then Fn(p)
      else Undefined
    }

    /** `constructor(request, container)`; `methods` stands for the class that is constructed. */
    constructor(request: Value, container: Container, methods: set<string>)
      requires RequestProxyMethods + ObjectPrototypeNames <= methods
      ensures Valid()
      ensures this.methods == methods
      ensures fields == map["_request" := request, "_container" := Ref(container)]
      ensures target == Undefined && forwarded == {}
    {
      this.methods := methods;
      fields := map["_request" := request, "_container" := Ref(container)];
      target := Undefined;
      forwarded := {};
    }

    /** Assign an own data property before the object is wrapped. */
    method Set(p: string, v: Value)
      requires Valid() && forwarded == {}
      modifies this
      ensures Valid()
      ensures fields == old(fields)[p := v] && target == old(target) && forwarded == {}
    {
      fields := fields[p := v];
    }

    /** `wrap(obj)`: a falsy or non-object argument changes nothing; otherwise
        each listed name whose value is `undefined` becomes a getter reading
        `obj[name]`, replacing an own data property of that name. Fields and
        class methods are kept. The wrapped object itself is never written. */
    method Wrap(obj: Value)
      requires Valid() && forwarded == {}
      modifies this
      ensures Valid()
      ensures !IsObject(obj) ==> fields == old(fields) && target == old(target) && forwarded == {}
      ensures IsObject(obj) ==>
        && target == obj
        && forwarded == Forwarded(methods, old(fields), obj)
        && fields == old(fields) - forwarded
    {
      if !Truthy(obj) || !IsObject(obj) {
        return;
      }
      target := obj;
      ghost var fields0 := fields;
      var todo := WrapNames(obj);
      ghost var all := Forwarded(methods, fields0, obj);
      ghost var names := todo;
      while todo != {}
        invariant todo <= names
        invariant Valid() && target == obj
        invariant forwarded == all - todo
        invariant fields == fields0 - forwarded
        decreases todo
      {
        var p :| p in todo;
        assert p in all <==> Unset(methods, fields0, p);
        assert Get(p) == Undefined <==> Unset(methods, fields0, p);
        if Get(p) == Undefined {
          forwarded := forwarded + {p};
          fields := fields - {p};
        }
        todo := todo - {p};
      }
    }
  }

  /** The own data properties of a proxy constructed with subclass properties `own`. */
  function Own(request: Value, container: Container, own: map<string, Value>): (fields: map<string, Value>)
    ensures fields.Keys == {"_request", "_container"} + own.Keys
  {
    map["_request" := request, "_container" := Ref(container)] + own
  }

  /** Assigning one more subclass property `p` extends the own properties by it. */
  lemma OwnStep(request: Value, container: Container, own: map<string, Value>, names: set<string>, p: string)
    requires p in names && names <= own.Keys
    ensures Own(request, container, own - (names - {p})) == Own(request, container, own - names)[p := own[p]]
  {
    var after := Own(request, container, own - (names - {p}));
    var before := Own(request, container, own - names)[p := own[p]];
    assert after.Keys == before.Keys;
    forall k | k in after ensures after[k] == before[k] {
    }
  }

  /** What each RequestProxy subclass's constructor does: `super(request, container)`,
      then its own data properties `own`, then `this.wrap(obj)`. */
  method NewWrapped(request: Value, container: Container, methods: set<string>, own: map<string, Value>, obj: Value)
    returns (proxy: RequestProxy)
    requires RequestProxyMethods + ObjectPrototypeNames <= methods
    ensures fresh(proxy) && proxy.Valid() && proxy.methods == methods
    ensures proxy.fields == Own(request, container, own) - proxy.forwarded
    ensures IsObject(obj) ==>
      proxy.target == obj && proxy.forwarded == Forwarded(methods, Own(request, container, own), obj)
    ensures !IsObject(obj) ==> proxy.forwarded == {}
  {
    proxy := new RequestProxy(request, container, methods);
    var names := own.Keys;
    while names != {}
      invariant names <= own.Keys
      invariant proxy.Valid() && proxy.forwarded == {}
      invariant proxy.fields == Own(request, container, own - names)
      decreases names
    {
      var p :| p in names;
      OwnStep(request, container, own, names, p);
      proxy.Set(p, own[p]);
      names := names - {p};
    }
    assert own - {} == own;
    proxy.Wrap(obj);
    assert !IsObject(obj) ==> proxy.fields - {} == proxy.fields;
  }
}
