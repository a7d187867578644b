/**
 * FixtureRegistry: the name → model table that the fixtures of one load run
 * share, so that one fixture can refer to the models another one created.
 */
module FixtureRegistries {
  import opened Js

  /** `models[name]` on an object literal: an own entry, else a member
      inherited from Object.prototype, else `undefined`. */
  function ModelOf(models: map<string, Value>, name: string): (m: Value)
    ensures name in models ==> m == models[name]
    ensures name !in models && name in ObjectPrototypeNames ==> m == Fn(name)
    ensures name !in models && name !in ObjectPrototypeNames ==> m == Undefined
  {
    if name in models then models[name]
    else if name in ObjectPrototypeNames then Fn(name)
    else Undefined
  }

  /** After `models[name] = model`, `name` reads back `model`, and every
      other name reads what it read before. */
  lemma AddThenGet(models: map<string, Value>, name: string, model: Value, other: string)
    ensures ModelOf(models[name := model], name) == model
    ensures other != name ==> ModelOf(models[name := model], other) == ModelOf(models, other)
  {
  }

  class FixtureRegistry {
    /** `this.models`: the own entries of the object literal. */
    var models: map<string, Value>

    /** `new FixtureRegistry()`: no model registered. */
    constructor()
      ensures models == map[]
    {
      models := map[];
    }

    /** `add(name, model)`: the entry for `name` is (re)placed; nothing else changes. */
    method Add(name: string, model: Value)
      modifies this
      ensures models == old(models)[name := model]
      ensures Get(name) == model
      ensures forall other :: other != name ==> Get(other) == old(Get(other))
    {
      models := models[name := model];
    }

    /** `get(name)` */
    function Get(name: string): (m: Value)
      reads this
      ensures name in models ==> m == models[name]
      ensures name !in models && name !in ObjectPrototypeNames ==> m == Undefined
    {
      ModelOf(models, name)
    }
  }
}
