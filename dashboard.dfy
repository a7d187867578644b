/**
 * The dashboard's `managers` action: the document metadata of the first
 * manager definition, grouped by manager name, with each metadata object's
 * `relativePath` filled in, and one entry per manager definition.
 */
module Dashboard {
  import opened Js
  import opened Strings

  /** A document's metadata object, as the metadata registry holds it. */
  class Meta {
    /** `meta.managerName` */
    const managerName: string
    /** `meta.filePath` */
    const filePath: string
    /** `meta.relativePath`, which the action writes. */
    var relativePath: Value

    constructor(managerName: string, filePath: string)
      ensures this.managerName == managerName && this.filePath == filePath && relativePath == Undefined
    {
      this.managerName := managerName;
      this.filePath := filePath;
      relativePath := Undefined;
    }
  }

  /** A manager definition: the fields the action reads, and the metadata
      objects of its `metadataRegistry.metas`, in key order. */
  datatype Definition = Definition(managerName: Value, adapter: Value, documents: Value, metas: seq<Meta>)

  /** `managerToMeta[key]`: the metadata grouped under `key`, a member
      inherited from Object.prototype, or `undefined`. */
  datatype Documents = Metas(list: seq<Meta>) | Inherited(name: string) | Missing

  /** One element of the reply's `managers` array. */
  datatype ManagerEntry = ManagerEntry(name: Value, adapter: Value, documentPaths: Value, documents: Documents)

  /** `filePath.replace(projectPath, '')`: the first occurrence removed. */
  function RelativePath(meta: Meta, projectPath: string): Value
  {
    Str(ReplaceFirst(meta.filePath, projectPath, ""))
  }

  /** The metadata objects with manager name `name`, in order. */
  function OfManager(metas: seq<Meta>, name: string): seq<Meta>
  {
    if |metas| == 0 then []
    else OfManager(metas[..|metas| - 1], name) + (if metas[|metas| - 1].managerName == name then [metas[|metas| - 1]] else [])
  }

  /** `managerToMeta` after the first loop: each metadata object appended to
      the list of its manager name, which its first occurrence creates. */
  function Grouped(metas: seq<Meta>): map<string, seq<Meta>>
  {
    if |metas| == 0 then map[]
    else
      var groups := Grouped(metas[..|metas| - 1]);
      var meta := metas[|metas| - 1];
      groups[meta.managerName := (if meta.managerName in groups then groups[meta.managerName] else []) + [meta]]
  }

  /** One more metadata object is appended to its manager's list. */
  lemma GroupedStep(metas: seq<Meta>, i: nat)
    requires i < |metas|
    ensures var groups := Grouped(metas[..i]);
      var name := metas[i].managerName;
      Grouped(metas[..i + 1]) == groups[name := (if name in groups then groups[name] else []) + [metas[i]]]
  {
    assert metas[..i + 1][..i] == metas[..i];
  }

  /** The objects among the first `i + 1` are those among the first `i`
      and the `i`-th. */
  lemma PrefixStep(metas: seq<Meta>, i: nat)
    requires i < |metas|
    ensures forall m :: m in metas[..i + 1] <==> m in metas[..i] || m == metas[i]
  {
    assert metas[..i + 1] == metas[..i] + [metas[i]];
  }

  /** A name has a list exactly when some metadata names it, and the list
      holds that manager's metadata in iteration order. */
  lemma {:induction false} GroupedIsFilter(metas: seq<Meta>, name: string)
    ensures name in Grouped(metas) <==> |OfManager(metas, name)| > 0
    ensures name in Grouped(metas) ==> Grouped(metas)[name] == OfManager(metas, name)
    decreases |metas|
  {
    if |metas| > 0 {
      GroupedIsFilter(metas[..|metas| - 1], name);
    }
  }

  /** `managerToMeta[key]` */
  function DocumentsFor(groups: map<string, seq<Meta>>, key: string): (d: Documents)
    ensures key in groups ==> d == Metas(groups[key])
    ensures key !in groups && key !in ObjectPrototypeNames ==> d == Missing
  {
    if key in groups then Metas(groups[key])
    else if key in ObjectPrototypeNames then Inherited(key)
    else Missing
  }

  /** The entry built from the definition under `key`. */
  function EntryOf(key: string, definition: Definition, groups: map<string, seq<Meta>>): ManagerEntry
  {
    ManagerEntry(definition.managerName, definition.adapter, definition.documents, DocumentsFor(groups, key))
  }

  /** The metadata of the first definition, which is the only one read. */
  function FirstMetas(definitions: seq<(string, Definition)>): seq<Meta>
  {
    if |definitions| == 0 then [] else definitions[0].1.metas
  }

  /** How many metadata objects the first loop gets through: up to and
      including the first whose manager name `managerToMeta` inherits (its
      `push` is missing, and the action throws), or all of them. */
  function Reached(metas: seq<Meta>): (n: nat)
    ensures n <= |metas|
    ensures forall i :: 0 <= i < n - 1 ==> metas[i].managerName !in ObjectPrototypeNames
    ensures n < |metas| ==> n > 0 && metas[n - 1].managerName in ObjectPrototypeNames
    ensures |metas| > 0 ==> n > 0
  {
    if |metas| == 0 then 0
    else if metas[0].managerName in ObjectPrototypeNames then 1
    else 1 + Reached(metas[1..])
  }

  /** Whether the first loop throws. */
  predicate Throws(metas: seq<Meta>)
  {
    Reached(metas) > 0 && metas[Reached(metas) - 1].managerName in ObjectPrototypeNames
  }

  /** The first loop of `managers`: each metadata object gets its
      `relativePath` and is appended to the list of its manager name. */
  method GroupMetas(metas: seq<Meta>, projectPath: string) returns (r: Completion<map<string, seq<Meta>>>)
    modifies set m | m in metas
    ensures forall m :: m in metas[..Reached(metas)] ==> m.relativePath == RelativePath(m, projectPath)
    ensures forall m :: m in metas && m !in metas[..Reached(metas)] ==> m.relativePath == old(m.relativePath)
    ensures r.Throw? <==> Throws(metas)
    ensures r.Throw? ==> r.error == TypeError
    ensures r.Normal? ==> r.value == Grouped(metas)
  {
    var groups: map<string, seq<Meta>> := map[];
    var i := 0;
    while i < |metas|
      invariant 0 <= i <= |metas|
      invariant forall j :: 0 <= j < i ==> metas[j].managerName !in ObjectPrototypeNames
      invariant groups == Grouped(metas[..i])
      invariant forall m :: m in metas[..i] ==> m.relativePath == RelativePath(m, projectPath)
      invariant forall m :: m in metas && m !in metas[..i] ==> m.relativePath == old(m.relativePath)
    {
      var meta := metas[i];
      ReachedPast(metas, i);
      GroupedStep(metas, i);
      PrefixStep(metas, i);
      var relative := RelativePath(meta, projectPath);
      if meta.managerName in ObjectPrototypeNames {
        meta.relativePath := relative;
        return Throw(TypeError);
      }
      var list := if meta.managerName in groups then groups[meta.managerName] else [];
      meta.relativePath := relative;
      groups := groups[meta.managerName := list + [meta]];
      assert forall j :: 0 <= j < i + 1 ==> metas[j].managerName !in ObjectPrototypeNames by {
        forall j | 0 <= j < i + 1 ensures metas[j].managerName !in ObjectPrototypeNames {
          if j < i {
          } else {
            assert metas[j] == meta;
          }
        }
      }
      i := i + 1;
    }
    assert metas[..i] == metas;
    if |metas| == 0 {
      assert !Throws(metas);
    }
    r := Normal(groups);
  }

  /** The second loop of `managers`: one entry per definition, in key order. */
  method BuildEntries(definitions: seq<(string, Definition)>, groups: map<string, seq<Meta>>)
    returns (entries: seq<ManagerEntry>)
    ensures |entries| == |definitions|
    ensures forall k :: 0 <= k < |definitions| ==> entries[k] == EntryOf(definitions[k].0, definitions[k].1, groups)
  {
    entries := [];
    var k := 0;
    while k < |definitions|
      invariant 0 <= k <= |definitions|
      invariant |entries| == k
      invariant forall l :: 0 <= l < k ==> entries[l] == EntryOf(definitions[l].0, definitions[l].1, groups)
    {
      var definition := definitions[k].1;
      entries := entries + [ManagerEntry(definition.managerName, definition.adapter, definition.documents,
                                         DocumentsFor(groups, definitions[k].0))];
      k := k + 1;
    }
  }

  /** `managers(req, res)`, with `definitions` the manager definitions in key
      order and `projectPath` the `kernel.project_path` parameter. Without
      definitions the first lookup reads off `undefined` and throws. */
  method Managers(definitions: seq<(string, Definition)>, projectPath: string)
    returns (r: Completion<seq<ManagerEntry>>)
    modifies set m | m in FirstMetas(definitions)
    ensures |definitions| == 0 ==> r == Throw(TypeError)
    ensures var metas := FirstMetas(definitions);
      && (forall m :: m in metas[..Reached(metas)] ==> m.relativePath == RelativePath(m, projectPath))
      && (forall m :: m in metas && m !in metas[..Reached(metas)] ==> m.relativePath == old(m.relativePath))
    ensures |definitions| > 0 ==>
      var metas := FirstMetas(definitions);
      && (r.Throw? <==> Throws(metas))
      && (r.Throw? ==> r.error == TypeError)
      && (r.Normal? ==>
            && |r.value| == |definitions|
            && forall k :: 0 <= k < |definitions| ==>
                 r.value[k] == EntryOf(definitions[k].0, definitions[k].1, Grouped(metas)))
  {
    if |definitions| == 0 {
      return Throw(TypeError);
    }
    var grouped := GroupMetas(definitions[0].1.metas, projectPath);
    if grouped.Throw? {
      return Throw(grouped.error);
    }
    var entries := BuildEntries(definitions, grouped.value);
    r := Normal(entries);
  }

  /** Where the first loop stands at `i`: either it has not reached the
      metadata that throws, or `i` is that metadata. */
  lemma {:induction false} ReachedPast(metas: seq<Meta>, i: nat)
    requires i < |metas|
    requires forall j :: 0 <= j < i ==> metas[j].managerName !in ObjectPrototypeNames
    ensures i < Reached(metas)
    ensures metas[i].managerName in ObjectPrototypeNames ==> Reached(metas) == i + 1 && Throws(metas)
    ensures metas[i].managerName !in ObjectPrototypeNames && i + 1 == |metas| ==> Reached(metas) == |metas| && !Throws(metas)
    decreases i
  {
    if i > 0 {
      ReachedPast(metas[1..], i - 1);
    }
  }
}
