/**
 * BassDataCollector: the profiler collector that keeps, per adapter name,
 * the list of queries the manager proxies saved, and flattens them into
 * display entries.
 */
module Collector {
  import opened Js

  /** One saved query: the operation name, the data sent with it, and the microtime it was saved at. */
  datatype Query = Query(name: string, data: Value, microtime: int)

  /** What `this.adapters[name]` holds once getAdapter has run: the
      adapter's own record, or, for a name `in` finds on Object.prototype,
      the inherited member, which has no `queries`. */
  datatype Adapter = Record(queries: seq<Query>) | Inherited(name: string)

  /** One display entry produced by collectData. */
  datatype Entry = Entry(adapter: string, pretty: string, document: Value, name: string, data: Value, microtime: int)

  /** `data = {}`: the default applies to a missing (undefined) argument only. */
  function WithDefault(data: Value): (d: Value)
    ensures data.Undefined? ==> d == Rec(map[])
    ensures !data.Undefined? ==> d == data
  {
    if data.Undefined? then Rec(map[]) else data
  }

  /** The display entry of one query: `name` moved out of a shallow copy of the data. */
  function EntryOf(adapter: string, q: Query, stringify: Value -> string): (e: Entry)
    requires q.data.Rec?
    ensures e.data.Rec? && "name" !in e.data.fields
    ensures forall k :: k in q.data.fields && k != "name" ==> k in e.data.fields && e.data.fields[k] == q.data.fields[k]
    ensures forall k :: k in e.data.fields ==> k in q.data.fields
    ensures e.document == (if "name" in q.data.fields then q.data.fields["name"] else Undefined)
    ensures e.pretty == stringify(e.data)
    ensures e.adapter == adapter && e.name == q.name && e.microtime == q.microtime
  {
    var stripped := Rec(q.data.fields - {"name"});
    Entry(adapter, stringify(stripped), Read(q.data, "name"), q.name, stripped, q.microtime)
  }

  ghost predicate AllRecords(qs: seq<Query>)
  {
    forall i :: 0 <= i < |qs| ==> qs[i].data.Rec?
  }

  /** The entries of one adapter's queries, in list order. */
  function Entries(adapter: string, qs: seq<Query>, stringify: Value -> string): seq<Entry>
    requires AllRecords(qs)
  {
    if qs == [] then []
    else Entries(adapter, qs[..|qs| - 1], stringify) + [EntryOf(adapter, qs[|qs| - 1], stringify)]
  }

  ghost predicate Stored(keys: seq<string>, queries: map<string, seq<Query>>)
  {
    forall i :: 0 <= i < |keys| ==> keys[i] in queries && AllRecords(queries[keys[i]])
  }

  /** All entries: adapters in key order, each adapter's queries in list order. */
  function Flatten(keys: seq<string>, queries: map<string, seq<Query>>, stringify: Value -> string): seq<Entry>
    requires Stored(keys, queries)
  {
    if keys == [] then []
    else
      var last := keys[|keys| - 1];
      Flatten(keys[..|keys| - 1], queries, stringify) + Entries(last, queries[last], stringify)
  }

  /** The number of queries stored under the given adapters. */
  function Total(keys: seq<string>, queries: map<string, seq<Query>>): nat
    requires Stored(keys, queries)
  {
    if keys == [] then 0
    else Total(keys[..|keys| - 1], queries) + |queries[keys[|keys| - 1]]|
  }

  lemma {:induction false} EntriesAt(adapter: string, qs: seq<Query>, stringify: Value -> string)
    requires AllRecords(qs)
    ensures |Entries(adapter, qs, stringify)| == |qs|
    ensures forall j :: 0 <= j < |qs| ==> Entries(adapter, qs, stringify)[j] == EntryOf(adapter, qs[j], stringify)
  {
    if qs != [] {
      var init := qs[..|qs| - 1];
      EntriesAt(adapter, init, stringify);
      var e := Entries(adapter, qs, stringify);
      assert e == Entries(adapter, init, stringify) + [EntryOf(adapter, qs[|qs| - 1], stringify)];
      forall j | 0 <= j < |qs| ensures e[j] == EntryOf(adapter, qs[j], stringify) {
        if j < |init| {
          assert init[j] == qs[j];
        }
      }
    }
  }

  /** collectData emits exactly one entry per stored query. */
  lemma {:induction false} FlattenLength(keys: seq<string>, queries: map<string, seq<Query>>, stringify: Value -> string)
    requires Stored(keys, queries)
    ensures |Flatten(keys, queries, stringify)| == Total(keys, queries)
  {
    if keys != [] {
      var last := keys[|keys| - 1];
      FlattenLength(keys[..|keys| - 1], queries, stringify);
      EntriesAt(last, queries[last], stringify);
    }
  }

  /** The j-th query of the i-th adapter is the entry right after the queries of the adapters before it. */
  lemma {:induction false} FlattenAt(keys: seq<string>, queries: map<string, seq<Query>>, stringify: Value -> string, i: nat, j: nat)
    requires Stored(keys, queries)
    requires i < |keys| && j < |queries[keys[i]]|
    ensures Stored(keys[..i], queries)
    ensures Total(keys[..i], queries) + j < |Flatten(keys, queries, stringify)|
    ensures Flatten(keys, queries, stringify)[Total(keys[..i], queries) + j] == EntryOf(keys[i], queries[keys[i]][j], stringify)
  {
    var front := keys[..|keys| - 1];
    var last := keys[|keys| - 1];
    assert Stored(front, queries);
    FlattenLength(front, queries, stringify);
    EntriesAt(last, queries[last], stringify);
    if i == |keys| - 1 {
      assert keys[..i] == front;
    } else {
      assert front[..i] == keys[..i];
      FlattenAt(front, queries, stringify, i, j);
    }
  }

  /** One more query adds its entry at the end. */
  lemma EntriesStep(adapter: string, qs: seq<Query>, stringify: Value -> string, j: nat)
    requires AllRecords(qs) && j < |qs|
    ensures AllRecords(qs[..j]) && AllRecords(qs[..j + 1])
    ensures Entries(adapter, qs[..j + 1], stringify) == Entries(adapter, qs[..j], stringify) + [EntryOf(adapter, qs[j], stringify)]
  {
    assert qs[..j + 1][..j] == qs[..j];
  }

  /** One more adapter adds the entries of its queries at the end. */
  lemma FlattenStep(keys: seq<string>, queries: map<string, seq<Query>>, stringify: Value -> string, i: nat)
    requires Stored(keys, queries) && i < |keys|
    ensures Stored(keys[..i], queries) && Stored(keys[..i + 1], queries)
    ensures Flatten(keys[..i + 1], queries, stringify)
            == Flatten(keys[..i], queries, stringify) + Entries(keys[i], queries[keys[i]], stringify)
  {
    assert keys[..i + 1][..i] == keys[..i];
  }

  /** The two loops of collectData: adapters in key order, each adapter's
      queries in list order, one entry per query. */
  method CollectEntries(keys: seq<string>, queries: map<string, seq<Query>>, stringify: Value -> string)
    returns (entries: seq<Entry>)
    requires Stored(keys, queries)
    ensures entries == Flatten(keys, queries, stringify)
  {
    entries := [];
    var i := 0;
    while i < |keys|
      invariant 0 <= i <= |keys|
      invariant Stored(keys[..i], queries)
      invariant entries == Flatten(keys[..i], queries, stringify)
    {
      var adapter := keys[i];
      var qs := queries[adapter];
      FlattenStep(keys, queries, stringify, i);
      var j := 0;
      while j < |qs|
        invariant 0 <= j <= |qs|
        invariant AllRecords(qs[..j])
        invariant entries == Flatten(keys[..i], queries, stringify) + Entries(adapter, qs[..j], stringify)
      {
        EntriesStep(adapter, qs, stringify, j);
        entries := entries + [EntryOf(adapter, qs[j], stringify)];
        j := j + 1;
      }
      assert qs[..j] == qs;
      i := i + 1;
    }
    assert keys[..i] == keys;
  }

  class BassDataCollector {
    /** `this.adapters`: each adapter's `{queries: [...]}` record, by name. */
    var adapters: map<string, seq<Query>>
    /** `Object.keys(this.adapters)`: the adapter names in the order they were first seen. */
    var keys: seq<string>

    /** keys lists each adapter exactly once; every saved query carries an object as data. */
    ghost predicate Valid()
      reads this
    {
      && (forall i :: 0 <= i < |keys| ==> keys[i] in adapters)
      && (forall a :: a in adapters ==> a in keys)
      && (forall i, j :: 0 <= i < j < |keys| ==> keys[i] != keys[j])
      && (forall a :: a in adapters ==> AllRecords(adapters[a]))
      && (forall a :: a in adapters ==> a !in ObjectPrototypeNames)
    }

    /** The queries saved under `name` so far. */
    function QueriesOf(name: string): seq<Query>
      reads this
    {
      if name in adapters then adapters[name] else []
    }

    constructor()
      ensures Valid()
      ensures keys == [] && adapters == map[]
    {
      adapters := map[];
      keys := [];
    }

    /** `getAdapter(name)`: the adapter's record, created empty the first
        time the name is seen. The test `name in this.adapters` also finds
        the members `{}` inherits from Object.prototype, so for those names
        nothing is created and the inherited member is returned. */
    method GetAdapter(name: string) returns (held: Adapter)
      requires Valid()
      modifies this
      ensures Valid()
      ensures name in ObjectPrototypeNames ==> held == Inherited(name) && adapters == old(adapters) && keys == old(keys)
      ensures name !in ObjectPrototypeNames ==>
        && held == Record(old(QueriesOf(name)))
        && adapters == old(adapters)[name := held.queries]
        && keys == old(keys) + (if name in old(adapters) then [] else [name])
    {
      if name in ObjectPrototypeNames {
        return Inherited(name);
      }
      if name !in adapters {
        adapters := adapters[name := []];
        keys := keys + [name];
      }
      held := Record(adapters[name]);
    }

    /** `saveQuery(adapter, name, data = {})`: appends one query to that
        adapter's list only. For an adapter name inherited from
        Object.prototype, `queries` is undefined and `push` throws a
        TypeError before anything is saved. */
    method SaveQuery(adapter: string, name: string, data: Value, now: int) returns (r: Completion<BassDataCollector>)
      requires Valid()
      requires data.Undefined? || data.Rec?
      modifies this
      ensures Valid()
      ensures r.Throw? <==> adapter in ObjectPrototypeNames
      ensures r.Throw? ==> r.error == TypeError && adapters == old(adapters) && keys == old(keys)
      ensures r.Normal? ==>
        && r.value == this
        && keys == old(keys) + (if adapter in old(adapters) then [] else [adapter])
        && adapters == old(adapters)[adapter := old(QueriesOf(adapter)) + [Query(name, WithDefault(data), now)]]
    {
      var held := GetAdapter(adapter);
      if held.Inherited? {
        return Throw(TypeError);
      }
      var queries := held.queries;
      ghost var saved := queries + [Query(name, WithDefault(data), now)];
      assert AllRecords(saved) by {
        assert AllRecords(adapters[adapter]);
        forall i | 0 <= i < |saved| ensures saved[i].data.Rec? {
          if i < |queries| {
            assert saved[i] == queries[i];
          }
        }
      }
      adapters := adapters[adapter := queries + [Query(name, WithDefault(data), now)]];
      r := Normal(this);
    }

    /** `collectData()`: the saved queries as display entries; nothing stored is changed. */
    method CollectData(stringify: Value -> string) returns (entries: seq<Entry>)
      requires Valid()
      ensures Stored(keys, adapters)
      ensures entries == Flatten(keys, adapters, stringify)
    {
      assert Stored(keys, adapters);
      entries := CollectEntries(keys, adapters, stringify);
    }
  }
}
