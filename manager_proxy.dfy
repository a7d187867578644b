/**
 * ManagerRequestProxy: a per-request stand-in for a bass Manager. It keeps
 * its own repository cache, reaches the shared manager through a facade so
 * that the shared object is never changed, records the queries it forwards
 * in the profiler collector, and times them on the request's stopwatch.
 */
module ManagerProxies {
  import opened Js
  import opened Profiler
  import opened Collector
  import opened Containers
  import opened RequestProxies

  /** The names on ManagerRequestProxy's prototype chain. */
  const ManagerProxyMethods: set<string> := RequestProxyMethods + ObjectPrototypeNames +
    {"getAdapterName", "stopwatch", "promise", "getRepository", "mapToModel", "mapDataToModel",
     "mapDataToModels", "mapModelToData", "updateBy", "removeBy", "flush", "find", "findByQuery",
     "findCountByQuery", "findBy", "findWhereIn", "findCountBy", "findOneBy", "createSqlQuery",
     "startTransaction", "commitTransaction", "rollbackTransaction", "connectWithConfig", "closeConnection"}

  /** `Object.create(proto)` with the own properties `own`: reads see `own`
      first and the prototype's current properties otherwise. */
  class Facade {
    const proto: JsObject
    const own: map<string, Value>

    constructor(proto: JsObject, own: map<string, Value>)
      ensures this.proto == proto && this.own == own
    {
      this.proto := proto;
      this.own := own;
    }

    function Get(p: string): Value
      reads proto
    {
      if p in own then own[p] else proto.Get(p)
    }
  }

  /** `this.repositories`: the proxy's own repository facades, by name. */
  class RepositoryCache {
    var entries: map<string, Facade>

    constructor()
      ensures entries == map[]
    {
      entries := map[];
    }
  }

  /** `manager.definition` */
  function Definition(manager: Facade): Value
    reads manager.proto
  {
    manager.Get("definition")
  }

  /** `manager.definition.adapter`, when the definition is an object. */
  function AdapterOf(manager: Facade): Value
    reads manager.proto, ObjectsOf(Definition(manager))
  {
    Read(Definition(manager), "adapter")
  }

  /** `getAdapterName()`: `definition.adapter.name || 'bass'`. Reading through an
      `undefined` or `null` definition or adapter throws a TypeError; otherwise
      the name is always truthy. */
  function AdapterName(manager: Facade): (r: Completion<Value>)
    reads manager.proto, ObjectsOf(Definition(manager)), ObjectsOf(AdapterOf(manager))
    ensures r.Throw? <==> Definition(manager) in {Undefined, Null} || AdapterOf(manager) in {Undefined, Null}
    ensures r.Throw? ==> r.error == TypeError
    ensures r.Normal? ==> Truthy(r.value)
    ensures r.Normal? ==> var name := Read(AdapterOf(manager), "name");
      (Truthy(name) ==> r.value == name) && (!Truthy(name) ==> r.value == Str("bass"))
  {
    match PropertyOf(Definition(manager), "adapter")
    case Throw(e) => Throw(e)
    case Normal(adapter) =>
      match PropertyOf(adapter, "name")
      case Throw(e) => Throw(e)
      case Normal(name) => Normal(if Truthy(name) then name else Str("bass"))
  }

  /** `manager[p]` */
  function Member(manager: Facade, p: string): Value
    reads manager.proto
  {
    manager.Get(p)
  }

  /** The parameters of each completion callback the proxy wraps:
      `(err, data)` for the three model mappings (lib/proxy/ManagerRequestProxy.js:91,
      99, 112), `(data)` for mapModelToData (125) and `(err)` for
      closeConnection (266). */
  const CallbackArity: map<string, nat> :=
    map["mapToModel" := 2, "mapDataToModel" := 2, "mapDataToModels" := 2,
        "mapModelToData" := 1, "closeConnection" := 1]

  /** The adapter name saveQuery files a query under: a TypeError reading
      the name passes on, and so does the collector's TypeError for a name
      `in` finds on Object.prototype, whose inherited member has no `queries`
      to push to. */
  function SaveTarget(name: Completion<Value>): (r: Completion<Value>)
    ensures r.Throw? <==> name.Throw? || ToJsString(name.value) in ObjectPrototypeNames
    ensures r.Throw? ==> r.error == (if name.Throw? then name.error else TypeError)
    ensures r.Normal? ==> r == name
  {
    if name.Normal? && ToJsString(name.value) in ObjectPrototypeNames then Throw(TypeError) else name
  }

  /** The stopwatch event name `adapter + '.' + title`. */
  function EventName(adapter: Value, title: string): (name: string)
    ensures name == ToJsString(adapter) + "." + title
    ensures |name| > |title|
  {
    ToJsString(adapter) + "." + title
  }

  /** `name + '.' + op`, the title of an operation on one repository. */
  function OpLabel(name: Value, op: string): string
  {
    ToJsString(name) + "." + op
  }

  /** The events once the handle `h` is stopped: its event's stop count goes
      up by one; without a handle nothing changes. */
  function Stop(events: seq<Event>, h: Option<nat>): (after: seq<Event>)
    ensures |after| == |events|
    ensures h.Some? && h.value < |events| ==>
      after[h.value] == events[h.value].(stops := events[h.value].stops + 1)
      && forall i :: 0 <= i < |events| && i != h.value ==> after[i] == events[i]
    ensures (h.None? || h.value >= |events|) ==> after == events
  {
    if h.Some? && h.value < |events| then events[h.value := events[h.value].(stops := events[h.value].stops + 1)] else events
  }

  /** A stopwatch event as it stands after being started and stopped `stops` times. */
  function Timing(adapter: Value, title: string, stops: nat): Event
  {
    Event(EventName(adapter, title), adapter, 0, stops)
  }

  class ManagerRequestProxy {
    /** The RequestProxy part: own data properties and getters forwarding to the manager. */
    const base: RequestProxy
    /** `this._manager`: a facade whose prototype is the shared manager. */
    const manager: Facade
    /** `this.repositories` */
    const repositories: RepositoryCache
    /** `this._stopwatch`: the request's stopwatch section, or `false`. */
    const stopwatch: Option<StopwatchSection>
    /** `this._collector` */
    const collector: BassDataCollector
    /** The bass library the manager belongs to. */
    const library: Library

    /** The stopwatch section, as a frame. */
    function Sections(): set<object>
    {
      if stopwatch.Some? then {stopwatch.value} else {}
    }

    /** The events of the stopwatch section (none without one). */
    ghost function Events(): seq<Event>
      reads Sections()
    {
      if stopwatch.Some? then stopwatch.value.events else []
    }

    /** A handle a callback may stop or lap: `false`, or an event of the section. */
    ghost predicate Handle(h: Option<nat>)
      reads Sections()
    {
      h.Some? ==> stopwatch.Some? && h.value < |stopwatch.value.events|
    }

    /** `new ManagerRequestProxy(manager, request, container)`: the facade gets
        the bound `getRepository`, the cache starts empty, the section and the
        collector come from the container, and only then is the manager wrapped.
        The shared manager is not written. */
    constructor(m: JsObject, request: Value, container: Container, library: Library)
      ensures fresh(base) && fresh(manager) && fresh(repositories)
      ensures manager.proto == m && manager.own == map["getRepository" := Fn("bound getRepository")]
      ensures repositories.entries == map[]
      ensures stopwatch == container.stopwatch && collector == container.collector && this.library == library
      ensures base.Valid() && base.methods == ManagerProxyMethods && base.target == Obj(m)
      ensures base.forwarded == Forwarded(ManagerProxyMethods, Own(request, container, OwnFields()), Obj(m))
      ensures base.fields == Own(request, container, OwnFields()) - base.forwarded
      ensures unchanged(m)
    {
      var facade := new Facade(m, map["getRepository" := Fn("bound getRepository")]);
      var cache := new RepositoryCache();
      var own := map["_manager" := Ref(facade), "repositories" := Ref(cache),
                     "_stopwatch" := if container.stopwatch.Some? then Ref(container.stopwatch.value) else Bool(false),
                     "_collector" := Ref(container.collector)];
      var proxy := NewWrapped(request, container, ManagerProxyMethods, own, Obj(m));
      manager := facade;
      repositories := cache;
      stopwatch := container.stopwatch;
      collector := container.collector;
      this.library := library;
      base := proxy;
    }

    /** The data properties the constructor assigns before wrapping. */
    function OwnFields(): map<string, Value>
    {
      map["_manager" := Ref(manager), "repositories" := Ref(repositories),
          "_stopwatch" := if stopwatch.Some? then Ref(stopwatch.value) else Bool(false),
          "_collector" := Ref(collector)]
    }

    /** `stopwatch(title)`: `false` without a section; otherwise a new event
        named `adapter + '.' + title` in category `adapter`. */
    method Stopwatch(title: string) returns (c: Completion<Option<nat>>)
      modifies Sections()
      ensures var a := old(AdapterName(manager));
        && (a.Throw? ==> c == Throw(a.error) && Events() == old(Events()))
        && (a.Normal? && stopwatch.None? ==> c == Normal(None))
        && (a.Normal? && stopwatch.Some? ==>
              && c == Normal(Some(|old(Events())|))
              && Events() == old(Events()) + [Timing(a.value, title, 0)])
      ensures c.Normal? ==> Handle(c.value)
    {
      var a := AdapterName(manager);
      if a.Throw? {
        return Throw(a.error);
      }
      if stopwatch.Some? {
        var h := stopwatch.value.Start(EventName(a.value, title), a.value);
        c := Normal(Some(h));
      } else {
        c := Normal(None);
      }
    }

    /** `stopwatch && stopwatch.stop()` */
    method StopEvent(h: Option<nat>)
      requires Handle(h)
      modifies Sections()
      ensures h.None? ==> Events() == old(Events())
      ensures h.Some? ==> Events() == old(Events())[h.value := old(Events())[h.value].(stops := old(Events())[h.value].stops + 1)]
    {
      if h.Some? {
        stopwatch.value.Stop(h.value);
      }
    }

    /** `promise(p, stopwatch)`: the event is stopped whether the promise
        resolves or rejects, and the value or the error passes through unchanged. */
    method Promise(p: Outcome, h: Option<nat>) returns (r: Outcome)
      requires Handle(h)
      modifies Sections()
      ensures r == p
      ensures h.None? ==> Events() == old(Events())
      ensures h.Some? ==> Events() == old(Events())[h.value := old(Events())[h.value].(stops := old(Events())[h.value].stops + 1)]
    {
      StopEvent(h);
      r := p;
    }

    /** `this._manager.op(...args)`: a TypeError when the manager has no such function. */
    method CallManager(call: Call) returns (r: Completion<Outcome>)
      modifies library
      ensures !Member(manager, call.op).Fn? ==> r == Throw(TypeError) && library.log == old(library.log)
      ensures Member(manager, call.op).Fn? ==>
        && library.log == old(library.log) + [Invocation(Ref(manager), call)]
        && r == Normal(library.answer(|old(library.log)|, Invocation(Ref(manager), call)))
    {
      if !Member(manager, call.op).Fn? {
        return Throw(TypeError);
      }
      var o := library.Invoke(Ref(manager), call);
      r := Normal(o);
    }

    /** What a timed call to the manager leaves behind, starting from the
        call log `log0` and the events `events0`: with the function present
        (`found`), exactly one call with the same arguments, its settlement
        passed through, and the event started and stopped once; without it, a
        TypeError and the event started but never stopped. */
    ghost predicate TimedCall(adapter: Value, title: string, call: Call, r: Completion<Outcome>,
                              found: bool, log0: seq<Invocation>, events0: seq<Event>)
      reads Sections(), library
    {
      && Events() == events0 + (if stopwatch.Some? then [Timing(adapter, title, if found then 1 else 0)] else [])
      && (found ==>
            && library.log == log0 + [Invocation(Ref(manager), call)]
            && r == Normal(library.answer(|log0|, Invocation(Ref(manager), call))))
      && (!found ==> library.log == log0 && r == Throw(TypeError))
    }

    /** `this.promise(this._manager.op(...args), this.stopwatch(title))` */
    method Timed(title: string, call: Call) returns (r: Completion<Outcome>)
      modifies Sections(), library
      ensures var a := old(AdapterName(manager));
        && (a.Throw? ==> r == Throw(a.error) && Events() == old(Events()) && library.log == old(library.log))
        && (a.Normal? ==> TimedCall(a.value, title, call, r, old(Member(manager, call.op).Fn?), old(library.log), old(Events())))
    {
      ghost var events0 := Events();
      ghost var log0 := library.log;
      var sw := Stopwatch(title);
      if sw.Throw? {
        return Throw(sw.error);
      }
      ghost var a := old(AdapterName(manager)).value;
      var c := CallManager(call);
      if c.Throw? {
        return c;
      }
      var o := Promise(c.value, sw.value);
      r := Normal(o);
      if stopwatch.Some? {
        assert Events() == (events0 + [Timing(a, title, 0)])[|events0| := Timing(a, title, 1)];
        assert Events() == events0 + [Timing(a, title, 1)];
      }
    }

    /** What `collector.saveQuery(adapter, op, data, now)` leaves behind. */
    twostate predicate Saved(new adapter: Value, op: string, new data: Value, now: int)
      reads collector
    {
      var key := ToJsString(adapter);
      && collector.Valid()
      && collector.keys == old(collector.keys) + (if key in old(collector.adapters) then [] else [key])
      && collector.adapters == old(collector.adapters)[key := old(collector.QueriesOf(key)) + [Query(op, WithDefault(data), now)]]
    }

    /** `this._collector.saveQuery(this.getAdapterName(), op, data)`: the
        adapter name is read first, and a TypeError reading it saves nothing;
        so does the collector's TypeError for a name inherited from
        Object.prototype (SaveTarget). Only the collector changes. */
    method SaveQuery(op: string, data: Value, now: int) returns (a: Completion<Value>)
      requires collector.Valid()
      requires data.Undefined? || data.Rec?
      modifies collector
      ensures a == SaveTarget(old(AdapterName(manager))) && AdapterName(manager) == old(AdapterName(manager))
      ensures a.Throw? ==> collector.keys == old(collector.keys) && collector.adapters == old(collector.adapters)
      ensures a.Normal? ==> Saved(a.value, op, data, now)
      ensures Events() == old(Events()) && library.log == old(library.log)
    {
      a := AdapterName(manager);
      if a.Normal? {
        var saved := collector.SaveQuery(ToJsString(a.value), op, data, now);
        if saved.Throw? {
          a := Throw(saved.error);
        }
      }
      assert unchanged(manager.proto);
      assert unchanged(ObjectsOf(Definition(manager)));
      assert unchanged(ObjectsOf(AdapterOf(manager)));
    }

    /** What a recorded operation leaves behind: when the adapter name can be
        read, exactly one query saved under it with the operation's name and
        data, then a timed call; otherwise the TypeError and nothing else. */
    twostate predicate Recorded(op: string, new data: Value, title: string, call: Call, now: int, new r: Completion<Outcome>)
      reads collector, Sections(), library, manager.proto
    {
      var a := SaveTarget(old(AdapterName(manager)));
      && (a.Throw? ==>
            && r == Throw(a.error)
            && collector.keys == old(collector.keys) && collector.adapters == old(collector.adapters)
            && Events() == old(Events()) && library.log == old(library.log))
      && (a.Normal? ==> Saved(a.value, op, data, now) && TimedCall(a.value, title, call, r, old(Member(manager, call.op).Fn?), old(library.log), old(Events())))
    }

    /** The shape every recorded operation shares: `saveQuery`, then the timed call. */
    method Record(op: string, data: Value, title: string, call: Call, now: int) returns (r: Completion<Outcome>)
      requires collector.Valid()
      requires data.Undefined? || data.Rec?
      modifies collector, Sections(), library
      ensures Recorded(op, data, title, call, now, r)
    {
      var a := SaveQuery(op, data, now);
      if a.Throw? {
        return Throw(a.error);
      }
      r := Timed(title, call);
    }

    /** `find(name, id)` */
    method Find(args: seq<Value>, now: int) returns (r: Completion<Outcome>)
      requires collector.Valid()
      modifies collector, Sections(), library
      ensures Recorded("find", Rec(map["name" := Arg(args, 0), "criteria" := Rec(map["id" := Arg(args, 1)])]),
                       OpLabel(Arg(args, 0), "find"), Call("find", args), now, r)
    {
      r := Record("find", Rec(map["name" := Arg(args, 0), "criteria" := Rec(map["id" := Arg(args, 1)])]),
                  OpLabel(Arg(args, 0), "find"), Call("find", args), now);
    }

    /** `findBy(name, criteria, sort, skip, limit)` */
    method FindBy(args: seq<Value>, now: int) returns (r: Completion<Outcome>)
      requires collector.Valid()
      modifies collector, Sections(), library
      ensures Recorded("findBy", Rec(map["name" := Arg(args, 0), "criteria" := Arg(args, 1), "sort" := Arg(args, 2),
                                         "skip" := Arg(args, 3), "limit" := Arg(args, 4)]),
                       OpLabel(Arg(args, 0), "findBy"), Call("findBy", args), now, r)
    {
      r := Record("findBy", Rec(map["name" := Arg(args, 0), "criteria" := Arg(args, 1), "sort" := Arg(args, 2),
                                    "skip" := Arg(args, 3), "limit" := Arg(args, 4)]),
                  OpLabel(Arg(args, 0), "findBy"), Call("findBy", args), now);
    }

    /** `findOneBy(name, criteria, sort)` */
    method FindOneBy(args: seq<Value>, now: int) returns (r: Completion<Outcome>)
      requires collector.Valid()
      modifies collector, Sections(), library
      ensures Recorded("findOneBy", Rec(map["name" := Arg(args, 0), "criteria" := Arg(args, 1), "sort" := Arg(args, 2)]),
                       OpLabel(Arg(args, 0), "findOneBy"), Call("findOneBy", args), now, r)
    {
      r := Record("findOneBy", Rec(map["name" := Arg(args, 0), "criteria" := Arg(args, 1), "sort" := Arg(args, 2)]),
                  OpLabel(Arg(args, 0), "findOneBy"), Call("findOneBy", args), now);
    }

    /** `findByQuery(name, query)` */
    method FindByQuery(args: seq<Value>, now: int) returns (r: Completion<Outcome>)
      requires collector.Valid()
      modifies collector, Sections(), library
      ensures Recorded("findByQuery", Rec(map["name" := Arg(args, 0), "query" := Arg(args, 1)]),
                       OpLabel(Arg(args, 0), "findByQuery"), Call("findByQuery", args), now, r)
    {
      r := Record("findByQuery", Rec(map["name" := Arg(args, 0), "query" := Arg(args, 1)]),
                  OpLabel(Arg(args, 0), "findByQuery"), Call("findByQuery", args), now);
    }

    /** `findCountBy(name, criteria)` */
    method FindCountBy(args: seq<Value>, now: int) returns (r: Completion<Outcome>)
      requires collector.Valid()
      modifies collector, Sections(), library
      ensures Recorded("findCountBy", Rec(map["name" := Arg(args, 0), "criteria" := Arg(args, 1)]),
                       OpLabel(Arg(args, 0), "findCountBy"), Call("findCountBy", args), now, r)
    {
      r := Record("findCountBy", Rec(map["name" := Arg(args, 0), "criteria" := Arg(args, 1)]),
                  OpLabel(Arg(args, 0), "findCountBy"), Call("findCountBy", args), now);
    }

    /** `findCountByQuery(name, query)` */
    method FindCountByQuery(args: seq<Value>, now: int) returns (r: Completion<Outcome>)
      requires collector.Valid()
      modifies collector, Sections(), library
      ensures Recorded("findCountByQuery", Rec(map["name" := Arg(args, 0), "query" := Arg(args, 1)]),
                       OpLabel(Arg(args, 0), "findCountByQuery"), Call("findCountByQuery", args), now, r)
    {
      r := Record("findCountByQuery", Rec(map["name" := Arg(args, 0), "query" := Arg(args, 1)]),
                  OpLabel(Arg(args, 0), "findCountByQuery"), Call("findCountByQuery", args), now);
    }

    /** `findWhereIn(name, field, values, sort, limit)` */
    method FindWhereIn(args: seq<Value>, now: int) returns (r: Completion<Outcome>)
      requires collector.Valid()
      modifies collector, Sections(), library
      ensures Recorded("findWhereIn", Rec(map["name" := Arg(args, 0), "field" := Arg(args, 1), "values" := Arg(args, 2),
                                              "sort" := Arg(args, 3), "limit" := Arg(args, 4)]),
                       OpLabel(Arg(args, 0), "findWhereIn"), Call("findWhereIn", args), now, r)
    {
      r := Record("findWhereIn", Rec(map["name" := Arg(args, 0), "field" := Arg(args, 1), "values" := Arg(args, 2),
                                         "sort" := Arg(args, 3), "limit" := Arg(args, 4)]),
                  OpLabel(Arg(args, 0), "findWhereIn"), Call("findWhereIn", args), now);
    }

    /** `removeBy(name, criteria)` */
    method RemoveBy(args: seq<Value>, now: int) returns (r: Completion<Outcome>)
      requires collector.Valid()
      modifies collector, Sections(), library
      ensures Recorded("removeBy", Rec(map["name" := Arg(args, 0), "criteria" := Arg(args, 1)]),
                       OpLabel(Arg(args, 0), "removeBy"), Call("removeBy", args), now, r)
    {
      r := Record("removeBy", Rec(map["name" := Arg(args, 0), "criteria" := Arg(args, 1)]),
                  OpLabel(Arg(args, 0), "removeBy"), Call("removeBy", args), now);
    }

    /** `createSqlQuery(sql, params, repositoryName)`, timed under the title as
        written (SqlLabelAsWritten), so a falsy name keeps its text. */
    method CreateSqlQuery(args: seq<Value>, now: int) returns (r: Completion<Outcome>)
      requires collector.Valid()
      modifies collector, Sections(), library
      ensures Recorded("createSqlQuery", Rec(map["sql" := Arg(args, 0), "params" := Arg(args, 1), "repositoryName" := Arg(args, 2)]),
                       SqlLabelAsWritten(Arg(args, 2)), Call("createSqlQuery", args), now, r)
    {
      r := Record("createSqlQuery", Rec(map["sql" := Arg(args, 0), "params" := Arg(args, 1), "repositoryName" := Arg(args, 2)]),
                  SqlLabelAsWritten(Arg(args, 2)), Call("createSqlQuery", args), now);
    }

    /** `startTransaction()`: no data, so the saved data is `{}`; the manager is called without arguments. */
    method StartTransaction(now: int) returns (r: Completion<Outcome>)
      requires collector.Valid()
      modifies collector, Sections(), library
      ensures Recorded("startTransaction", Undefined, "transaction.start", Call("startTransaction", []), now, r)
    {
      r := Record("startTransaction", Undefined, "transaction.start", Call("startTransaction", []), now);
    }

    /** `commitTransaction()` */
    method CommitTransaction(now: int) returns (r: Completion<Outcome>)
      requires collector.Valid()
      modifies collector, Sections(), library
      ensures Recorded("commitTransaction", Undefined, "transaction.commit", Call("commitTransaction", []), now, r)
    {
      r := Record("commitTransaction", Undefined, "transaction.commit", Call("commitTransaction", []), now);
    }

    /** `rollbackTransaction()` */
    method RollbackTransaction(now: int) returns (r: Completion<Outcome>)
      requires collector.Valid()
      modifies collector, Sections(), library
      ensures Recorded("rollbackTransaction", Undefined, "transaction.rollback", Call("rollbackTransaction", []), now, r)
    {
      r := Record("rollbackTransaction", Undefined, "transaction.rollback", Call("rollbackTransaction", []), now);
    }

    /** What `getRepository(name)` does, from the call log `log0` and the
        cache `entries0` to `log1` and `entries1`: a name already in the cache
        (or, because of the `in` test, inherited from Object.prototype) is
        answered without calling the manager. Otherwise the shared manager's
        own `getRepository` is called once with this proxy's facade as
        `this`; the repository it returns becomes the prototype of a new
        facade (`created`), which gets `_setManager(this)` and is then cached
        under the name. Each step that throws ends the call there, with the
        cache as it was. */
    ghost predicate GotRepository(name: Value, r: Completion<Value>, created: Option<Facade>,
                                  log0: seq<Invocation>, entries0: map<string, Facade>,
                                  log1: seq<Invocation>, entries1: map<string, Facade>)
      reads manager.proto, if created.Some? then {created.value.proto} else {}
    {
      var key := ToJsString(name);
      if key in entries0 then r == Normal(Ref(entries0[key])) && entries1 == entries0 && log1 == log0
      else if key in ObjectPrototypeNames then r == Normal(Fn(key)) && entries1 == entries0 && log1 == log0
      else if !manager.proto.Get("getRepository").Fn? then r == Throw(TypeError) && entries1 == entries0 && log1 == log0
      else
        var first := Invocation(Ref(manager), Call("getRepository", [name]));
        var answer := library.answer(|log0|, first);
        if answer.Err? then r == Throw(answer.error) && entries1 == entries0 && log1 == log0 + [first]
        else if !answer.value.Obj? then r == Throw(TypeError) && entries1 == entries0 && log1 == log0 + [first]
        else
          && created.Some? && created.value.proto == answer.value.obj && created.value.own == map[]
          && var told := Invocation(Ref(created.value), Call("_setManager", [Ref(this)]));
          && var setAnswer := library.answer(|log0| + 1, told);
          && (!created.value.Get("_setManager").Fn? ==>
                r == Throw(TypeError) && entries1 == entries0 && log1 == log0 + [first])
          && (created.value.Get("_setManager").Fn? && setAnswer.Err? ==>
                r == Throw(setAnswer.error) && entries1 == entries0 && log1 == log0 + [first, told])
          && (created.value.Get("_setManager").Fn? && setAnswer.Ok? ==>
                r == Normal(Ref(created.value)) && entries1 == entries0[key := created.value] && log1 == log0 + [first, told])
    }

    /** `getRepository(name)`, as GotRepository describes it. The repository
        itself is not written. */
    method GetRepository(name: Value) returns (r: Completion<Value>, ghost created: Option<Facade>)
      modifies repositories, library
      ensures GotRepository(name, r, created, old(library.log), old(repositories.entries), library.log, repositories.entries)
      ensures created.Some? ==> fresh(created.value)
    {
      var key := ToJsString(name);
      created := None;
      if key in repositories.entries {
        return Normal(Ref(repositories.entries[key])), created;
      }
      if key in ObjectPrototypeNames {
        return Normal(Fn(key)), created;
      }
      if !manager.proto.Get("getRepository").Fn? {
        return Throw(TypeError), created;
      }
      var found := library.Invoke(Ref(manager), Call("getRepository", [name]));
      if found.Err? {
        return Throw(found.error), created;
      }
      if !found.value.Obj? {
        return Throw(TypeError), created;
      }
      var repository := new Facade(found.value.obj, map[]);
      created := Some(repository);
      if !repository.Get("_setManager").Fn? {
        return Throw(TypeError), created;
      }
      var told := library.Invoke(Ref(repository), Call("_setManager", [Ref(this)]));
      if told.Err? {
        return Throw(told.error), created;
      }
      repositories.entries := repositories.entries[key := repository];
      r := Normal(Ref(repository));
    }

    /** `repository.op(...args)` on what getRepository returned. */
    method CallRepository(repository: Value, call: Call) returns (r: Completion<Outcome>)
      modifies library
      ensures repository.Ref? && repository.ref is Facade && (repository.ref as Facade).Get(call.op).Fn? ==>
        && library.log == old(library.log) + [Invocation(repository, call)]
        && r == Normal(library.answer(|old(library.log)|, Invocation(repository, call)))
      ensures !(repository.Ref? && repository.ref is Facade && (repository.ref as Facade).Get(call.op).Fn?) ==>
        r == Throw(TypeError) && library.log == old(library.log)
    {
      if repository.Ref? && repository.ref is Facade && (repository.ref as Facade).Get(call.op).Fn? {
        var o := library.Invoke(repository, call);
        r := Normal(o);
      } else {
        r := Throw(TypeError);
      }
    }

    /** Whether `repository[op]` is a function: only a facade made by
        getRepository can have one here. */
    ghost predicate Callable(repository: Completion<Value>, op: string)
      reads if repository.Normal? && repository.value.Ref? && repository.value.ref is Facade
            then {(repository.value.ref as Facade).proto} else {}
    {
      repository.Normal? && repository.value.Ref? && repository.value.ref is Facade
      && (repository.value.ref as Facade).Get(op).Fn?
    }

    /** `this.promise(repository.op(...args), stopwatch)` on what
        getRepository answered: with a function there, exactly one call, its
        settlement passed through, and the event `h` stopped once; otherwise
        the error, no call, and the event left running. */
    method CallAndSettle(repository: Completion<Value>, call: Call, h: Option<nat>) returns (r: Completion<Outcome>)
      requires Handle(h)
      modifies Sections(), library
      ensures Callable(repository, call.op) ==>
        && library.log == old(library.log) + [Invocation(repository.value, call)]
        && r == Normal(library.answer(|old(library.log)|, Invocation(repository.value, call)))
        && Events() == Stop(old(Events()), h)
      ensures !Callable(repository, call.op) ==>
        && library.log == old(library.log) && Events() == old(Events())
        && r == (if repository.Throw? then Throw(repository.error) else Throw(TypeError))
    {
      if repository.Throw? {
        return Throw(repository.error);
      }
      var c := CallRepository(repository.value, call);
      if c.Throw? {
        return c;
      }
      var o := Promise(c.value, h);
      r := Normal(o);
    }

    /** `this.promise(this._manager.getRepository(name).updateBy(criteria, data), stopwatch)`
        once the event `h` is running. The ghost results name what
        getRepository answered, the facade it made, and the call log it left
        (`fetched`): then, as CallAndSettle says, either exactly one
        `updateBy(criteria, data)` on that repository, whose settlement passes
        through and stops the event, or a throw with no further call and the
        event still running. */
    method UpdateThrough(name: Value, criteria: Value, data: Value, h: Option<nat>)
      returns (r: Completion<Outcome>, ghost repository: Completion<Value>, ghost created: Option<Facade>, ghost fetched: seq<Invocation>)
      requires Handle(h)
      modifies Sections(), library, repositories
      ensures GotRepository(name, repository, created, old(library.log), old(repositories.entries), fetched, repositories.entries)
      ensures created.Some? ==> fresh(created.value)
      ensures Callable(repository, "updateBy") ==>
        && library.log == fetched + [Invocation(repository.value, Call("updateBy", [criteria, data]))]
        && r == Normal(library.answer(|fetched|, Invocation(repository.value, Call("updateBy", [criteria, data]))))
        && Events() == Stop(old(Events()), h)
      ensures !Callable(repository, "updateBy") ==>
        && library.log == fetched && Events() == old(Events())
        && r == (if repository.Throw? then Throw(repository.error) else Throw(TypeError))
    {
      var found;
      found, created := GetRepository(name);
      repository, fetched := found, library.log;
      r := CallAndSettle(found, Call("updateBy", [criteria, data]), h);
    }

    /** What a timed updateBy leaves behind, from the call log `log0`, the
        cache `entries0` and the events `events0`: getRepository as
        GotRepository describes it, leaving the log `fetched`; then, when the
        repository has an `updateBy` function, exactly that one call, its
        settlement as the result, and the event started and stopped once;
        otherwise the error, no further call, and the event started but never
        stopped. */
    ghost predicate TimedUpdated(adapter: Value, name: Value, criteria: Value, data: Value, r: Completion<Outcome>,
                                 repository: Completion<Value>, created: Option<Facade>, fetched: seq<Invocation>,
                                 log0: seq<Invocation>, entries0: map<string, Facade>, events0: seq<Event>)
      reads Sections(), library, repositories, manager.proto, if created.Some? then {created.value.proto} else {}
      reads if repository.Normal? && repository.value.Ref? && repository.value.ref is Facade
            then {(repository.value.ref as Facade).proto} else {}
    {
      var call := Call("updateBy", [criteria, data]);
      var title := OpLabel(name, "updateBy");
      && GotRepository(name, repository, created, log0, entries0, fetched, repositories.entries)
      && (Callable(repository, "updateBy") ==>
            && library.log == fetched + [Invocation(repository.value, call)]
            && r == Normal(library.answer(|fetched|, Invocation(repository.value, call)))
            && Events() == events0 + (if stopwatch.Some? then [Timing(adapter, title, 1)] else []))
      && (!Callable(repository, "updateBy") ==>
            && library.log == fetched
            && r == (if repository.Throw? then Throw(repository.error) else Throw(TypeError))
            && Events() == events0 + (if stopwatch.Some? then [Timing(adapter, title, 0)] else []))
    }

    /** The timed half of updateBy: the event, then the repository call. */
    method TimedUpdate(name: Value, criteria: Value, data: Value)
      returns (r: Completion<Outcome>, ghost repository: Completion<Value>, ghost created: Option<Facade>, ghost fetched: seq<Invocation>)
      modifies Sections(), library, repositories
      ensures var a := old(AdapterName(manager));
        && (a.Throw? ==> r == Throw(a.error) && Events() == old(Events()) && library.log == old(library.log)
                           && repositories.entries == old(repositories.entries))
        && (a.Normal? ==> TimedUpdated(a.value, name, criteria, data, r, repository, created, fetched,
                                       old(library.log), old(repositories.entries), old(Events())))
      ensures created.Some? ==> fresh(created.value)
    {
      ghost var events0, log0, entries0 := Events(), library.log, repositories.entries;
      repository, created, fetched := Throw(TypeError), None, library.log;
      var sw := Stopwatch(OpLabel(name, "updateBy"));
      if sw.Throw? {
        return Throw(sw.error), repository, created, fetched;
      }
      ghost var a := old(AdapterName(manager)).value;
      ghost var title := OpLabel(name, "updateBy");
      assert library.log == log0 && repositories.entries == entries0;
      assert Events() == events0 + (if stopwatch.Some? then [Timing(a, title, 0)] else []);
      r, repository, created, fetched := UpdateThrough(name, criteria, data, sw.value);
      assert GotRepository(name, repository, created, log0, entries0, fetched, repositories.entries);
      if Callable(repository, "updateBy") && stopwatch.Some? {
        assert Events() == (events0 + [Timing(a, title, 0)])[|events0| := Timing(a, title, 1)];
      }
    }

    /** `updateBy(name, criteria, data)`: recorded and timed like the other
        operations, but the call goes to the repository this proxy's own
        cache hands out, with `criteria` and `data` only. */
    method UpdateBy(args: seq<Value>, now: int)
      returns (r: Completion<Outcome>, ghost repository: Completion<Value>, ghost created: Option<Facade>, ghost fetched: seq<Invocation>)
      requires collector.Valid()
      modifies collector, Sections(), library, repositories
      ensures var a := SaveTarget(old(AdapterName(manager)));
        && (a.Throw? ==>
              && r == Throw(a.error)
              && collector.keys == old(collector.keys) && collector.adapters == old(collector.adapters)
              && Events() == old(Events()) && library.log == old(library.log)
              && repositories.entries == old(repositories.entries))
        && (a.Normal? ==>
              && Saved(a.value, "updateBy", Rec(map["name" := Arg(args, 0), "criteria" := Arg(args, 1), "data" := Arg(args, 2)]), now)
              && TimedUpdated(a.value, Arg(args, 0), Arg(args, 1), Arg(args, 2), r, repository, created, fetched,
                              old(library.log), old(repositories.entries), old(Events())))
      ensures created.Some? ==> fresh(created.value)
    {
      var name, criteria, data := Arg(args, 0), Arg(args, 1), Arg(args, 2);
      repository, created, fetched := Throw(TypeError), None, library.log;
      var a := SaveQuery("updateBy", Rec(map["name" := name, "criteria" := criteria, "data" := data]), now);
      if a.Throw? {
        return Throw(a.error), repository, created, fetched;
      }
      r, repository, created, fetched := TimedUpdate(name, criteria, data);
    }

    /** What starting a mapping leaves behind: the event started (never
        stopped here) and the manager called once, or the TypeError. */
    twostate predicate Started(new adapter: Value, title: string, call: Call, new r: Completion<Outcome>, new event: Option<nat>)
      reads Sections(), library, manager.proto
    {
      var found := old(Member(manager, call.op)).Fn?;
      && Events() == old(Events()) + (if stopwatch.Some? then [Timing(adapter, title, 0)] else [])
      && event == (if stopwatch.Some? then Some(|old(Events())|) else None)
      && (found ==>
            && library.log == old(library.log) + [Invocation(Ref(manager), call)]
            && r == Normal(library.answer(|old(library.log)|, Invocation(Ref(manager), call))))
      && (!found ==> library.log == old(library.log) && r == Throw(TypeError))
    }

    /** `const stopwatch = this.stopwatch(title); return this._manager.op(...)`,
        where the callbacks passed to the manager hold on to the event. */
    method StartMapping(title: string, call: Call) returns (r: Completion<Outcome>, event: Option<nat>)
      modifies Sections(), library
      ensures Handle(event)
      ensures var a := old(AdapterName(manager));
        && (a.Throw? ==> r == Throw(a.error) && event.None? && Events() == old(Events()) && library.log == old(library.log))
        && (a.Normal? ==> Started(a.value, title, call, r, event))
    {
      event := None;
      var sw := Stopwatch(title);
      if sw.Throw? {
        return Throw(sw.error), event;
      }
      event := sw.value;
      r := CallManager(call);
    }

    /** What a mapping operation on `metadata` leaves behind: `metadata.name`
        throws on an `undefined` or `null` metadata before anything else
        happens; otherwise the event titled after the metadata's name is
        started and the manager called once, as in Started. */
    twostate predicate Mapped(op: string, metadata: Value, call: Call, new r: Completion<Outcome>, new event: Option<nat>)
      reads Sections(), library, manager.proto
    {
      if metadata in {Undefined, Null} then
        r == Throw(TypeError) && event.None? && Events() == old(Events()) && library.log == old(library.log)
      else
        var a := old(AdapterName(manager));
        && (a.Throw? ==> r == Throw(a.error) && event.None? && Events() == old(Events()) && library.log == old(library.log))
        && (a.Normal? ==> Started(a.value, OpLabel(old(Read(metadata, "name")), op), call, r, event))
    }

    /** `const stopwatch = this.stopwatch(metadata.name + '.' + op); return this._manager.op(...)` */
    method Mapping(op: string, metadata: Value, args: seq<Value>) returns (r: Completion<Outcome>, event: Option<nat>)
      modifies Sections(), library
      ensures Handle(event)
      ensures Mapped(op, metadata, Call(op, args), r, event)
    {
      var name := PropertyOf(metadata, "name");
      if name.Throw? {
        return Throw(name.error), None;
      }
      r, event := StartMapping(OpLabel(name.value, op), Call(op, args));
    }

    /** `mapToModel(metadata, data, populate, cb)` */
    method MapToModel(metadata: Value, data: Value, populate: Value) returns (r: Completion<Outcome>, event: Option<nat>)
      modifies Sections(), library
      ensures Handle(event)
      ensures Mapped("mapToModel", metadata, Call("mapToModel", [metadata, data, populate, Fn("mapToModel callback")]), r, event)
    {
      r, event := Mapping("mapToModel", metadata, [metadata, data, populate, Fn("mapToModel callback")]);
    }

    /** `mapDataToModel(metadata, document, cb, walkRecursive)` */
    method MapDataToModel(metadata: Value, document: Value) returns (r: Completion<Outcome>, event: Option<nat>)
      modifies Sections(), library
      ensures Handle(event)
      ensures Mapped("mapDataToModel", metadata, Call("mapDataToModel", [metadata, document, Fn("mapDataToModel callback"), Fn("mapDataToModel walk")]), r, event)
    {
      r, event := Mapping("mapDataToModel", metadata, [metadata, document, Fn("mapDataToModel callback"), Fn("mapDataToModel walk")]);
    }

    /** `mapDataToModels(metadata, document, cb, walk)` */
    method MapDataToModels(metadata: Value, document: Value) returns (r: Completion<Outcome>, event: Option<nat>)
      modifies Sections(), library
      ensures Handle(event)
      ensures Mapped("mapDataToModels", metadata, Call("mapDataToModels", [metadata, document, Fn("mapDataToModels callback"), Fn("mapDataToModels walk")]), r, event)
    {
      r, event := Mapping("mapDataToModels", metadata, [metadata, document, Fn("mapDataToModels callback"), Fn("mapDataToModels walk")]);
    }

    /** `mapModelToData(metadata, model, cb)` */
    method MapModelToData(metadata: Value, model: Value) returns (r: Completion<Outcome>, event: Option<nat>)
      modifies Sections(), library
      ensures Handle(event)
      ensures Mapped("mapModelToData", metadata, Call("mapModelToData", [metadata, model, Fn("mapModelToData callback")]), r, event)
    {
      r, event := Mapping("mapModelToData", metadata, [metadata, model, Fn("mapModelToData callback")]);
    }

    /** `closeConnection(cb)`: timed until the manager calls back; the manager
        receives only the wrapping callback. */
    method CloseConnection() returns (r: Completion<Outcome>, event: Option<nat>)
      modifies Sections(), library
      ensures Handle(event)
      ensures var a := old(AdapterName(manager));
        && (a.Throw? ==> r == Throw(a.error) && event.None? && Events() == old(Events()) && library.log == old(library.log))
        && (a.Normal? ==> Started(a.value, "connection.close", Call("closeConnection", [Fn("closeConnection callback")]), r, event))
    {
      r, event := StartMapping("connection.close", Call("closeConnection", [Fn("closeConnection callback")]));
    }

    /** The completion callback the mapping operations and closeConnection
        pass to the manager, `Fn(op + " callback")`: stop the event, then
        call the caller's callback with the wrapper's own parameters, as many
        as CallbackArity gives for `op`. Arguments past those are dropped, and
        missing ones are `undefined`. */
    method Done(event: Option<nat>, op: string, args: seq<Value>) returns (passed: seq<Value>)
      requires Handle(event)
      requires op in CallbackArity
      modifies Sections()
      ensures Handle(event)
      ensures |passed| == CallbackArity[op]
      ensures forall i :: 0 <= i < |passed| && i < |args| ==> passed[i] == args[i]
      ensures forall i :: |args| <= i < |passed| ==> passed[i] == Undefined
      ensures Events() == Stop(old(Events()), event)
    {
      var arity := CallbackArity[op];
      StopEvent(event);
      passed := seq(arity, i requires 0 <= i => Arg(args, i));
    }

    /** The progress callback of mapDataToModel and mapDataToModels: a lap
        only for an index above 0, and the caller's walk callback only when
        it is a function, with the same arguments. */
    method Progress(event: Option<nat>, err: Value, mapped: Value, idx: int, walk: Value) returns (walked: Option<seq<Value>>)
      requires Handle(event)
      modifies Sections()
      ensures Handle(event)
      ensures event.Some? && idx > 0 ==>
        Events() == old(Events())[event.value := old(Events())[event.value].(laps := old(Events())[event.value].laps + 1)]
      ensures !(event.Some? && idx > 0) ==> Events() == old(Events())
      ensures walked == if walk.Fn? then Some([err, mapped, Num(idx)]) else None
    {
      if event.Some? && idx > 0 {
        stopwatch.value.Lap(event.value);
      }
      walked := if walk.Fn? then Some([err, mapped, Num(idx)]) else None;
    }

    /** `flush(document)`: timed, not recorded. */
    method Flush(args: seq<Value>) returns (r: Completion<Outcome>)
      modifies Sections(), library
      ensures var a := old(AdapterName(manager));
        && (a.Throw? ==> r == Throw(a.error) && Events() == old(Events()) && library.log == old(library.log))
        && (a.Normal? ==> TimedCall(a.value, "flush", Call("flush", args), r, old(Member(manager, "flush").Fn?), old(library.log), old(Events())))
    {
      r := Timed("flush", Call("flush", args));
    }

    /** `connectWithConfig(config, cb)`: timed, not recorded. */
    method ConnectWithConfig(args: seq<Value>) returns (r: Completion<Outcome>)
      modifies Sections(), library
      ensures var a := old(AdapterName(manager));
        && (a.Throw? ==> r == Throw(a.error) && Events() == old(Events()) && library.log == old(library.log))
        && (a.Normal? ==> TimedCall(a.value, "connection.open.config", Call("connectWithConfig", args), r,
                                  old(Member(manager, "connectWithConfig").Fn?), old(library.log), old(Events())))
    {
      r := Timed("connection.open.config", Call("connectWithConfig", args));
    }
  }

  /** The title createSqlQuery builds as written,
      `(repositoryName && repositoryName + '.') + 'createSqlQuery'`: a falsy
      name is not dropped but converted to a string and prefixed as it is. */
  function SqlLabelAsWritten(repositoryName: Value): (title: string)
    ensures Truthy(repositoryName) ==> title == OpLabel(repositoryName, "createSqlQuery")
    ensures !Truthy(repositoryName) ==> title == ToJsString(repositoryName) + "createSqlQuery"
  {
    (if Truthy(repositoryName) then ToJsString(repositoryName) + "." else ToJsString(repositoryName)) + "createSqlQuery"
  }

  /** Without a repository name the title as written starts with "undefined". */
  lemma SqlLabelPrefixesMissingName()
    ensures SqlLabelAsWritten(Undefined) == "undefinedcreateSqlQuery"
    ensures SqlLabel(Undefined) == "createSqlQuery"
  {
  }

  /** The two titles agree exactly on the truthy names and on the empty
      string; every other falsy name (undefined, null, false, 0) leaves its
      own text in front of the title as written. */
  lemma SqlLabelsAgree(repositoryName: Value)
    ensures (SqlLabelAsWritten(repositoryName) == SqlLabel(repositoryName)) <==> (Truthy(repositoryName) || repositoryName == Str(""))
  {
    if !Truthy(repositoryName) && repositoryName != Str("") {
      var text := ToJsString(repositoryName);
      assert |text| > 0;
      assert |SqlLabelAsWritten(repositoryName)| > |SqlLabel(repositoryName)|;
    }
  }

  /** The title `createSqlQuery` times: the repository name and a dot in front
      only when a repository name is given. */
  function SqlLabel(repositoryName: Value): (title: string)
    ensures Truthy(repositoryName) ==> title == OpLabel(repositoryName, "createSqlQuery")
    ensures !Truthy(repositoryName) ==> title == "createSqlQuery"
  {
    if Truthy(repositoryName) then OpLabel(repositoryName, "createSqlQuery") else "createSqlQuery"
  }
}
