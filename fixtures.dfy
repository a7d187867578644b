/**
 * Loading and running fixtures: every fixture file yields one fixture, all
 * sharing one fresh registry; the fixtures are ordered by `getOrder()`, ties
 * kept in discovery order, and loaded one at a time. FixtureRunner and
 * LoadFixturesCommand share the loading algorithm; they differ in what they
 * do around each load and when the fixtures directory is missing.
 */
module Fixtures {
  import opened Js
  import opened FixtureRegistries

  /** A fixture instance: `new Fixture(container, registry)` for the class a
      file exports. Its order is what its `getOrder()` returns. */
  class Fixture {
    const order: int
    const registry: FixtureRegistry
    /** `fixture.__FILE_PATH` */
    var filePath: Value

    constructor(order: int, registry: FixtureRegistry)
      ensures this.order == order && this.registry == registry && filePath == Undefined
    {
      this.order := order;
      this.registry := registry;
      filePath := Undefined;
    }
  }

  /** Ascending by order. */
  predicate Sorted(s: seq<Fixture>)
  {
    forall i, j :: 0 <= i < j < |s| ==> s[i].order <= s[j].order
  }

  /** The fixtures of order `k`, in the order they appear. */
  function OfOrder(s: seq<Fixture>, k: int): seq<Fixture>
  {
    if |s| == 0 then []
    else OfOrder(s[..|s| - 1], k) + (if s[|s| - 1].order == k then [s[|s| - 1]] else [])
  }

  /** `x` placed after every element of order at most its own and before the
      trailing elements of greater order. */
  function Insert(s: seq<Fixture>, x: Fixture): seq<Fixture>
  {
    if |s| == 0 then [x]
    else if s[|s| - 1].order > x.order then Insert(s[..|s| - 1], x) + [s[|s| - 1]]
    else s + [x]
  }

  /** The stable sort by order that `fixtures.sort(...)` performs. */
  function StableSort(s: seq<Fixture>): seq<Fixture>
  {
    if |s| == 0 then [] else Insert(StableSort(s[..|s| - 1]), s[|s| - 1])
  }

  lemma {:induction false} InsertPermutes(s: seq<Fixture>, x: Fixture)
    ensures multiset(Insert(s, x)) == multiset(s) + multiset{x}
    decreases |s|
  {
    if |s| > 0 && s[|s| - 1].order > x.order {
      InsertPermutes(s[..|s| - 1], x);
      assert s == s[..|s| - 1] + [s[|s| - 1]];
    }
  }

  lemma {:induction false} InsertSorted(s: seq<Fixture>, x: Fixture)
    requires Sorted(s)
    ensures Sorted(Insert(s, x))
    ensures |Insert(s, x)| == |s| + 1
    ensures forall i :: 0 <= i < |Insert(s, x)| ==> Insert(s, x)[i] == x || Insert(s, x)[i] in s
    decreases |s|
  {
    if |s| > 0 && s[|s| - 1].order > x.order {
      var init := s[..|s| - 1];
      InsertSorted(init, x);
      var r := Insert(init, x);
      forall i | 0 <= i < |r| ensures r[i].order <= s[|s| - 1].order {
        if r[i] != x {
          assert r[i] in init;
        }
      }
      forall i | 0 <= i < |r| ensures r[i] == x || r[i] in s {
        if r[i] != x {
          assert r[i] in init;
        }
      }
    }
  }

  /** Inserting `x` adds it after the fixtures of its own order already there. */
  lemma {:induction false} InsertKeepsTies(s: seq<Fixture>, x: Fixture, k: int)
    ensures OfOrder(Insert(s, x), k) == OfOrder(s, k) + (if x.order == k then [x] else [])
    decreases |s|
  {
    if |s| == 0 {
      assert OfOrder([x], k) == OfOrder([], k) + (if x.order == k then [x] else []);
    } else if s[|s| - 1].order > x.order {
      var init := s[..|s| - 1];
      var last := s[|s| - 1];
      InsertKeepsTies(init, x, k);
      assert (Insert(init, x) + [last])[..|Insert(init, x)|] == Insert(init, x);
    } else {
      assert (s + [x])[..|s|] == s;
    }
  }

  /** The sort is a permutation into ascending order in which fixtures of
      equal order keep their relative order. */
  lemma {:induction false} StableSortCorrect(s: seq<Fixture>)
    ensures Sorted(StableSort(s))
    ensures multiset(StableSort(s)) == multiset(s)
    ensures forall k :: OfOrder(StableSort(s), k) == OfOrder(s, k)
    decreases |s|
  {
    if |s| > 0 {
      var init := s[..|s| - 1];
      var last := s[|s| - 1];
      StableSortCorrect(init);
      InsertSorted(StableSort(init), last);
      InsertPermutes(StableSort(init), last);
      assert s == init + [last];
      forall k ensures OfOrder(StableSort(s), k) == OfOrder(s, k) {
        InsertKeepsTies(StableSort(init), last, k);
      }
    }
  }

  /** Moving past one more element of greater order keeps the insertion
      point's split of `Insert(s, x)`. */
  lemma InsertStep(s: seq<Fixture>, x: Fixture, j: nat)
    requires 0 < j <= |s| && s[j - 1].order > x.order
    ensures Insert(s[..j], x) + s[j..] == Insert(s[..j - 1], x) + s[j - 1..]
  {
    assert s[..j][..j - 1] == s[..j - 1];
    assert s[j - 1..] == [s[j - 1]] + s[j..];
  }

  /** The elements before the insertion point, then `x`, then the rest of
      `s` shifted right by one, are `Insert(s, x)` when nothing before the
      point has greater order than `x`. */
  lemma InsertPlaced(s: seq<Fixture>, x: Fixture, j: nat, placed: seq<Fixture>)
    requires j <= |s| && (j == 0 || s[j - 1].order <= x.order)
    requires Insert(s, x) == Insert(s[..j], x) + s[j..]
    requires |placed| == |s| + 1 && placed[j] == x
    requires forall k :: 0 <= k < j ==> placed[k] == s[k]
    requires forall k :: j < k < |placed| ==> placed[k] == s[k - 1]
    ensures placed == Insert(s, x)
  {
    assert Insert(s[..j], x) == s[..j] + [x];
    assert placed == s[..j] + [x] + s[j..];
  }

  /** One step of the insertion sort: `a[i]` moves left past the elements
      of strictly greater order in the sorted prefix `a[..i]`. */
  method InsertAt(a: array<Fixture>, i: nat)
    requires i < a.Length
    modifies a
    ensures a[..i + 1] == Insert(old(a[..i]), old(a[i]))
    ensures a[i + 1..] == old(a[i + 1..])
  {
    ghost var sorted := a[..i];
    var x := a[i];
    var j := i;
    assert sorted[..j] == sorted && sorted[j..] == [];
    while j > 0 && a[j - 1].order > x.order
      invariant 0 <= j <= i
      invariant forall k :: 0 <= k < j ==> a[k] == sorted[k]
      invariant forall k :: j < k <= i ==> a[k] == sorted[k - 1]
      invariant forall k :: i < k < a.Length ==> a[k] == old(a[k])
      invariant Insert(sorted, x) == Insert(sorted[..j], x) + sorted[j..]
    {
      InsertStep(sorted, x, j);
      a[j] := a[j - 1];
      j := j - 1;
    }
    a[j] := x;
    InsertPlaced(sorted, x, j, a[..i + 1]);
  }

  /** `fixtures.sort(...)` in place: an insertion sort that moves an element
      past only the elements of strictly greater order. */
  method SortByOrder(a: array<Fixture>)
    modifies a
    ensures a[..] == StableSort(old(a[..]))
  {
    ghost var original := a[..];
    var i := 0;
    while i < a.Length
      invariant 0 <= i <= a.Length
      invariant a[..i] == StableSort(original[..i])
      invariant a[i..] == original[i..]
    {
      assert original[..i + 1][..i] == original[..i];
      assert a[i] == original[i];
      InsertAt(a, i);
      assert a[i + 1..] == original[i + 1..];
      i := i + 1;
    }
    assert a[..] == a[..a.Length];
    assert original == original[..a.Length];
  }

  /** The fixtures created from `files`, before sorting: one per file, in
      file order, each tagged with its path, all with `registry`. */
  predicate Created(created: seq<Fixture>, files: seq<string>, orderOf: string -> int, registry: FixtureRegistry)
    reads set f | f in created
  {
    && |created| == |files|
    && (forall i :: 0 <= i < |files| ==>
          created[i].filePath == Str(files[i]) && created[i].order == orderOf(files[i]) && created[i].registry == registry)
    && (forall i, j :: 0 <= i < j < |created| ==> created[i] != created[j])
  }

  /** `loadFixtures(dir)` once the directory is known to exist: `files` are
      the `*Fixture.js` files the directory holds and `orderOf(file)` the
      order of the fixture that file defines. */
  method LoadFixtures(files: seq<string>, orderOf: string -> int)
    returns (fixtures: seq<Fixture>, created: seq<Fixture>, registry: FixtureRegistry)
    ensures fresh(registry) && registry.models == map[]
    ensures forall f :: f in created ==> fresh(f)
    ensures Created(created, files, orderOf, registry)
    ensures fixtures == StableSort(created)
  {
    registry := new FixtureRegistry();
    created := [];
    var i := 0;
    while i < |files|
      invariant 0 <= i <= |files|
      invariant |created| == i
      invariant fresh(registry) && registry.models == map[]
      invariant forall f :: f in created ==> fresh(f)
      invariant forall k :: 0 <= k < i ==>
        created[k].filePath == Str(files[k]) && created[k].order == orderOf(files[k]) && created[k].registry == registry
      invariant forall k, l :: 0 <= k < l < i ==> created[k] != created[l]
    {
      var fixture := new Fixture(orderOf(files[i]), registry);
      fixture.filePath := Str(files[i]);
      created := created + [fixture];
      i := i + 1;
    }
    var a := new Fixture[|created|](k requires 0 <= k < |created| => created[k]);
    assert a[..] == created;
    SortByOrder(a);
    fixtures := a[..];
  }

  /** One thing done while the fixtures run. */
  datatype Step =
    | Wrote(line: string)
    | RunEach(fixture: Fixture)
    | Load(fixture: Fixture)

  /** What the task for one fixture does before its `load(cb)`. */
  datatype Before =
    /** FixtureRunner: `onRunEach(fixture)` when `onRunEach` is a function. */
    | OnRunEach(onRunEach: Value)
    /** LoadFixturesCommand: `output.writeln('loading fixture: ' + path)`. */
    | Announce

  /** The steps of one task. */
  function TaskSteps(before: Before, fixture: Fixture): (steps: seq<Step>)
    reads fixture
    ensures |steps| >= 1 && steps[|steps| - 1] == Load(fixture)
    ensures before.OnRunEach? ==> (|steps| == 2 <==> before.onRunEach.Fn?)
    ensures before.OnRunEach? && |steps| == 2 ==> steps[0] == RunEach(fixture)
    ensures before.Announce? ==> steps == [Wrote("loading fixture: " + ToJsString(fixture.filePath)), Load(fixture)]
  {
    match before
    case OnRunEach(onRunEach) => (if onRunEach.Fn? then [RunEach(fixture)] else []) + [Load(fixture)]
    case Announce => [Wrote("loading fixture: " + ToJsString(fixture.filePath)), Load(fixture)]
  }

  /** How many tasks `async.series` runs: up to and including the first
      whose load calls back with an error, or all of them. */
  function TasksRun(fixtures: seq<Fixture>, failed: Fixture -> bool): (n: nat)
    ensures n <= |fixtures|
    ensures forall i :: 0 <= i < n - 1 ==> !failed(fixtures[i])
    ensures n < |fixtures| ==> n > 0 && failed(fixtures[n - 1])
    ensures n == |fixtures| ==> forall i :: 0 <= i < n - 1 ==> !failed(fixtures[i])
  {
    if |fixtures| == 0 then 0
    else if failed(fixtures[0]) then 1
    else 1 + TasksRun(fixtures[1..], failed)
  }

  /** The steps of the first `n` tasks, in order. */
  function SeriesSteps(before: Before, fixtures: seq<Fixture>, n: nat): seq<Step>
    requires n <= |fixtures|
    reads set f | f in fixtures
  {
    if n == 0 then [] else SeriesSteps(before, fixtures, n - 1) + TaskSteps(before, fixtures[n - 1])
  }

  /** A task loads its own fixture, once. */
  lemma TaskLoads(before: Before, fixture: Fixture)
    ensures Loads(TaskSteps(before, fixture)) == [fixture]
  {
    var task := TaskSteps(before, fixture);
    if |task| == 2 {
      LoadsAppend([task[0]], [Load(fixture)]);
      assert task == [task[0]] + [Load(fixture)];
    } else {
      assert task == [Load(fixture)];
    }
  }

  /** Steps that load the first `n - 1` fixtures, followed by steps that
      load the next one, load the first `n`. */
  lemma LoadsOfTask(prev: seq<Step>, task: seq<Step>, fixtures: seq<Fixture>, n: nat)
    requires 0 < n <= |fixtures|
    requires Loads(prev) == fixtures[..n - 1] && Loads(task) == [fixtures[n - 1]]
    ensures Loads(prev + task) == fixtures[..n]
  {
    LoadsAppend(prev, task);
    assert fixtures[..n] == fixtures[..n - 1] + [fixtures[n - 1]];
  }

  /** One more task adds its fixture to the loads of the series. */
  lemma SeriesLoadsStep(before: Before, fixtures: seq<Fixture>, n: nat)
    requires 0 < n <= |fixtures|
    requires Loads(SeriesSteps(before, fixtures, n - 1)) == fixtures[..n - 1]
    ensures Loads(SeriesSteps(before, fixtures, n)) == fixtures[..n]
  {
    TaskLoads(before, fixtures[n - 1]);
    LoadsOfTask(SeriesSteps(before, fixtures, n - 1), TaskSteps(before, fixtures[n - 1]), fixtures, n);
  }

  /** No task run, nothing loaded. */
  lemma SeriesLoadsNone(before: Before, fixtures: seq<Fixture>)
    ensures Loads(SeriesSteps(before, fixtures, 0)) == fixtures[..0]
  {
    assert fixtures[..0] == [];
  }

  /** Every run task loads its own fixture exactly once, in sorted order:
      the loads of the series are the first `n` fixtures. */
  lemma {:induction false} SeriesLoads(before: Before, fixtures: seq<Fixture>, n: nat)
    requires n <= |fixtures|
    ensures Loads(SeriesSteps(before, fixtures, n)) == fixtures[..n]
  {
    if n > 0 {
      var m := n - 1;
      SeriesLoads(before, fixtures, m);
      SeriesLoadsStep(before, fixtures, m + 1);
    } else {
      SeriesLoadsNone(before, fixtures);
    }
  }

  /** The fixtures loaded by a sequence of steps, in order. */
  function Loads(steps: seq<Step>): seq<Fixture>
  {
    if |steps| == 0 then []
    else Loads(steps[..|steps| - 1]) + (if steps[|steps| - 1].Load? then [steps[|steps| - 1].fixture] else [])
  }

  lemma {:induction false} LoadsAppend(a: seq<Step>, b: seq<Step>)
    ensures Loads(a + b) == Loads(a) + Loads(b)
    decreases |b|
  {
    if |b| > 0 {
      LoadsAppend(a, b[..|b| - 1]);
      assert (a + b)[..|a + b| - 1] == a + b[..|b| - 1];
    } else {
      assert a + b == a;
    }
  }

  /** `async.series(calls, (err, results) => next())` over one task per
      fixture: the tasks run one at a time, a load that calls back with an
      error ends the series, and `next` is called once at the end. */
  method RunSeries(before: Before, fixtures: seq<Fixture>, failed: Fixture -> bool, next: Callback)
    returns (steps: seq<Step>)
    modifies next
    ensures steps == SeriesSteps(before, fixtures, TasksRun(fixtures, failed))
    ensures next.calls == old(next.calls) + 1
  {
    steps := [];
    var i := 0;
    var stop := false;
    while i < |fixtures| && !stop
      invariant 0 <= i <= |fixtures|
      invariant steps == SeriesSteps(before, fixtures, i)
      invariant !stop ==> TasksRun(fixtures, failed) == i + TasksRun(fixtures[i..], failed)
      invariant stop ==> TasksRun(fixtures, failed) == i
    {
      steps := steps + TaskSteps(before, fixtures[i]);
      assert fixtures[i..][1..] == fixtures[i + 1..];
      stop := failed(fixtures[i]);
      i := i + 1;
    }
    next.Call();
  }

  /** `runFixtures(dir, onRunEach, next)`: the fixtures are loaded and run
      in series, each preceded by `onRunEach(fixture)` when that is a
      function. A missing directory is reported through `this.output`,
      which a FixtureRunner never sets: a TypeError, before `next`. */
  method RunFixtures(dirExists: bool, files: seq<string>, orderOf: string -> int, onRunEach: Value,
                     failed: Fixture -> bool, next: Callback)
    returns (r: Completion<seq<Step>>, ghost fixtures: seq<Fixture>)
    modifies next
    ensures !dirExists ==> r == Throw(TypeError) && next.calls == old(next.calls)
    ensures dirExists ==>
      && r.Normal? && next.calls == old(next.calls) + 1
      && (exists created, registry :: Created(created, files, orderOf, registry) && fixtures == StableSort(created))
      && r.value == SeriesSteps(OnRunEach(onRunEach), fixtures, TasksRun(fixtures, failed))
  {
    if !dirExists {
      return Throw(TypeError), [];
    }
    var sorted, created, registry := LoadFixtures(files, orderOf);
    fixtures := sorted;
    var steps := RunSeries(OnRunEach(onRunEach), sorted, failed, next);
    assert Created(created, files, orderOf, registry);
    r := Normal(steps);
  }

  /** The line `bass:fixtures` writes when the fixtures directory is missing. */
  function MissingDirectory(dir: string): string
  {
    "ERROR: Fixtures directory (" + dir + ") doesn't exist!"
  }

  /** How a run of the command ends. */
  datatype Ending = Exited | Finished

  /** `execute(input, output, next)` of `bass:fixtures`, after its delay:
      "Preparing to load fixtures..." first; a missing directory writes the
      error line and exits the process without calling `next`; otherwise
      each fixture is announced and loaded in series, and `next` is called
      once at the end. */
  method Execute(dir: string, dirExists: bool, files: seq<string>, orderOf: string -> int,
                 failed: Fixture -> bool, next: Callback)
    returns (ending: Ending, steps: seq<Step>, ghost fixtures: seq<Fixture>)
    modifies next
    ensures |steps| > 0 && steps[0] == Wrote("Preparing to load fixtures...")
    ensures !dirExists ==>
      ending == Exited && steps == [Wrote("Preparing to load fixtures..."), Wrote(MissingDirectory(dir))]
      && next.calls == old(next.calls)
    ensures dirExists ==>
      && ending == Finished && next.calls == old(next.calls) + 1
      && (exists created, registry :: Created(created, files, orderOf, registry) && fixtures == StableSort(created))
      && steps == [Wrote("Preparing to load fixtures...")] + SeriesSteps(Announce, fixtures, TasksRun(fixtures, failed))
  {
    steps := [Wrote("Preparing to load fixtures...")];
    if !dirExists {
      steps := steps + [Wrote(MissingDirectory(dir))];
      return Exited, steps, [];
    }
    var sorted, created, registry := LoadFixtures(files, orderOf);
    fixtures := sorted;
    var series := RunSeries(Announce, sorted, failed, next);
    assert Created(created, files, orderOf, registry);
    steps := steps + series;
    ending := Finished;
  }
}
