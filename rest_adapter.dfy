/**
 * The REST adapter's request handling: the sort string of a `findAll`
 * request, the calls made on the query, and what each handler does with the
 * settled answers of the manager (persist, remove, flush, reply).
 */
module RestAdapters {
  import opened Js
  import opened Strings

  /** A sort object: keys in the order they were first assigned, each with
      its direction. Keys that look like array indices, which an object puts
      first, are not told apart. */
  type SortSpec = seq<(string, int)>

  /** `sort[key]` */
  function Lookup(spec: SortSpec, key: string): Option<int>
  {
    if |spec| == 0 then None
    else if spec[0].0 == key then Some(spec[0].1)
    else Lookup(spec[1..], key)
  }

  /** The keys a sort object lists. */
  function Keys(spec: SortSpec): set<string>
  {
    set i | 0 <= i < |spec| :: spec[i].0
  }

  /** No key appears twice. */
  predicate DistinctKeys(spec: SortSpec)
  {
    forall i, j :: 0 <= i < j < |spec| ==> spec[i].0 != spec[j].0
  }

  /** `sort[key] = dir`: an existing key keeps its place and takes the new
      direction; a new key goes last. */
  function Put(spec: SortSpec, key: string, dir: int): (r: SortSpec)
    ensures Lookup(r, key) == Some(dir)
    ensures Keys(r) == Keys(spec) + {key}
    ensures DistinctKeys(spec) ==> DistinctKeys(r)
    ensures key in Keys(spec) ==> |r| == |spec|
    ensures key !in Keys(spec) ==> |r| == |spec| + 1
  {
    if |spec| == 0 then [(key, dir)]
    else
      assert spec == [spec[0]] + spec[1..];
      KeysCons(spec[0], spec[1..]);
      DistinctCons(spec[0], spec[1..]);
      if spec[0].0 == key then
        KeysCons((key, dir), spec[1..]);
        DistinctCons((key, dir), spec[1..]);
        [(key, dir)] + spec[1..]
      else
        var rest := Put(spec[1..], key, dir);
        KeysCons(spec[0], rest);
        DistinctCons(spec[0], rest);
        [spec[0]] + rest
  }

  /** The keys of a sort object with one more entry in front. */
  lemma KeysCons(head: (string, int), spec: SortSpec)
    ensures Keys([head] + spec) == {head.0} + Keys(spec)
  {
    var r := [head] + spec;
    forall k | k in Keys(r) ensures k in {head.0} + Keys(spec) {
      var i :| 0 <= i < |r| && r[i].0 == k;
      if i > 0 { assert spec[i - 1].0 == k; }
    }
    forall k | k in Keys(spec) ensures k in Keys(r) {
      var i :| 0 <= i < |spec| && spec[i].0 == k;
      assert r[i + 1].0 == k;
    }
    assert r[0].0 == head.0;
  }

  /** One more entry in front keeps the keys distinct exactly when its key is new. */
  lemma DistinctCons(head: (string, int), spec: SortSpec)
    ensures DistinctKeys([head] + spec) <==> head.0 !in Keys(spec) && DistinctKeys(spec)
  {
    var r := [head] + spec;
    if head.0 in Keys(spec) {
      var i :| 0 <= i < |spec| && spec[i].0 == head.0;
      assert r[i + 1].0 == r[0].0;
    }
    if DistinctKeys(r) {
      forall i, j | 0 <= i < j < |spec| ensures spec[i].0 != spec[j].0 {
        assert r[i + 1] == spec[i] && r[j + 1] == spec[j];
      }
    }
    if head.0 !in Keys(spec) && DistinctKeys(spec) {
      forall i, j | 0 <= i < j < |r| ensures r[i].0 != r[j].0 {
        assert r[j] == spec[j - 1];
        if i > 0 {
          assert r[i] == spec[i - 1];
        } else {
          assert r[j].0 in Keys(spec);
        }
      }
    }
  }

  /** Setting one key leaves every other key's direction as it was. */
  lemma {:induction false} PutKeepsOthers(spec: SortSpec, key: string, dir: int, other: string)
    requires other != key
    ensures Lookup(Put(spec, key, dir), other) == Lookup(spec, other)
    decreases |spec|
  {
    if |spec| > 0 && spec[0].0 != key {
      PutKeepsOthers(spec[1..], key, dir, other);
      assert Put(spec, key, dir)[1..] == Put(spec[1..], key, dir);
    }
  }

  /** The one key an assignment on an object literal does not create: it
      goes to the `__proto__` setter inherited from Object.prototype, which
      ignores a number. */
  const ProtoKey: string := "__proto__"

  /** `sort[key] = dir` on the object literal `sort = {}`: Put, except that
      ProtoKey leaves the sort object as it was. */
  function Assign(spec: SortSpec, key: string, dir: int): (r: SortSpec)
    ensures key == ProtoKey ==> r == spec
    ensures key != ProtoKey ==> Lookup(r, key) == Some(dir) && Keys(r) == Keys(spec) + {key}
    ensures DistinctKeys(spec) ==> DistinctKeys(r)
  {
    if key == ProtoKey then spec else Put(spec, key, dir)
  }

  /** The key a token of the sort string sets: without its leading `-`. */
  function KeyOf(token: string): string
  {
    if |token| > 0 && token[0] == '-' then token[1..] else token
  }

  /** The direction a token sets: -1 after a leading `-`, 1 otherwise
      (also for the empty token, whose first character is `undefined`). */
  function DirOf(token: string): int
  {
    if |token| > 0 && token[0] == '-' then -1 else 1
  }

  /** The sort object the tokens build, one assignment per token, in order. */
  function SortOf(tokens: seq<string>): SortSpec
  {
    if |tokens| == 0 then []
    else Assign(SortOf(tokens[..|tokens| - 1]), KeyOf(tokens[|tokens| - 1]), DirOf(tokens[|tokens| - 1]))
  }

  /** A key that no token sets is absent from the sort object. */
  lemma {:induction false} UnsetKeyAbsent(tokens: seq<string>, key: string)
    requires forall i :: 0 <= i < |tokens| ==> KeyOf(tokens[i]) != key
    ensures Lookup(SortOf(tokens), key) == None
    decreases |tokens|
  {
    if |tokens| > 0 {
      var init := tokens[..|tokens| - 1];
      assert forall i :: 0 <= i < |init| ==> init[i] == tokens[i];
      UnsetKeyAbsent(init, key);
      PutKeepsOthers(SortOf(init), KeyOf(tokens[|tokens| - 1]), DirOf(tokens[|tokens| - 1]), key);
    }
  }

  /** The direction the last token that sets `key` gives it, if any does. */
  function LastDir(tokens: seq<string>, key: string): Option<int>
  {
    if |tokens| == 0 then None
    else if KeyOf(tokens[|tokens| - 1]) == key then Some(DirOf(tokens[|tokens| - 1]))
    else LastDir(tokens[..|tokens| - 1], key)
  }

  /** Reading a key of the sort object gives the direction of the last token
      that sets it, and nothing when no token does; ProtoKey is never there. */
  lemma {:induction false} SortOfLookup(tokens: seq<string>, key: string)
    ensures Lookup(SortOf(tokens), key) == if key == ProtoKey then None else LastDir(tokens, key)
    decreases |tokens|
  {
    if |tokens| > 0 {
      var init := tokens[..|tokens| - 1];
      var last := tokens[|tokens| - 1];
      if KeyOf(last) != key || key == ProtoKey {
        SortOfLookup(init, key);
        if KeyOf(last) != ProtoKey {
          PutKeepsOthers(SortOf(init), KeyOf(last), DirOf(last), key);
        }
      }
    }
  }

  /** No token, `__proto__` or `-__proto__` included, puts ProtoKey into the sort object. */
  lemma {:induction false} ProtoKeyIgnored(tokens: seq<string>)
    ensures ProtoKey !in Keys(SortOf(tokens))
    decreases |tokens|
  {
    if |tokens| > 0 {
      ProtoKeyIgnored(tokens[..|tokens| - 1]);
    }
  }

  /** A token no later token overrides is the last one for its key. */
  lemma {:induction false} LastDirAt(tokens: seq<string>, i: nat)
    requires i < |tokens|
    requires forall j :: i < j < |tokens| ==> KeyOf(tokens[j]) != KeyOf(tokens[i])
    ensures LastDir(tokens, KeyOf(tokens[i])) == Some(DirOf(tokens[i]))
    decreases |tokens|
  {
    var n := |tokens| - 1;
    if i < n {
      var init := tokens[..n];
      assert init[i] == tokens[i];
      assert forall j :: i < j < n ==> init[j] == tokens[j];
      LastDirAt(init, i);
    }
  }

  /** The key of a token that no later token sets again carries that
      token's direction: the last occurrence wins. The key `__proto__` is
      the exception: it is never set. */
  lemma LastOccurrenceWins(tokens: seq<string>, i: nat)
    requires i < |tokens|
    requires forall j :: i < j < |tokens| ==> KeyOf(tokens[j]) != KeyOf(tokens[i])
    ensures Lookup(SortOf(tokens), KeyOf(tokens[i])) == if KeyOf(tokens[i]) == ProtoKey then None else Some(DirOf(tokens[i]))
  {
    SortOfLookup(tokens, KeyOf(tokens[i]));
    LastDirAt(tokens, i);
  }

  /** A token that starts with `-` loses exactly that first `-`. */
  lemma DashRemoved(token: string)
    requires |token| > 0 && token[0] == '-'
    ensures ReplaceFirst(token, "-", "") == token[1..]
  {
    assert OccursAt(token, "-", 0);
    ReplaceFirstOccurrence(token, "-", "", 0);
  }

  /** The sort object never lists a key twice. */
  lemma {:induction false} SortKeysDistinct(tokens: seq<string>)
    ensures DistinctKeys(SortOf(tokens))
    decreases |tokens|
  {
    if |tokens| > 0 {
      SortKeysDistinct(tokens[..|tokens| - 1]);
    }
  }

  /** The loop of `findAll` over `sort.split(',')`: no trimming, and one
      assignment per token, which `__proto__` ignores. */
  method ParseSort(sort: string) returns (spec: SortSpec)
    ensures spec == SortOf(Split(sort, ','))
    ensures DistinctKeys(spec) && ProtoKey !in Keys(spec)
  {
    var splits := Split(sort, ',');
    spec := [];
    var i := 0;
    while i < |splits|
      invariant 0 <= i <= |splits|
      invariant spec == SortOf(splits[..i])
    {
      assert splits[..i + 1][..i] == splits[..i];
      if |splits[i]| > 0 && splits[i][0] == '-' {
        DashRemoved(splits[i]);
        spec := Assign(spec, ReplaceFirst(splits[i], "-", ""), -1);
      } else {
        spec := Assign(spec, splits[i], 1);
      }
      i := i + 1;
    }
    assert splits[..|splits|] == splits;
    SortKeysDistinct(splits);
    ProtoKeyIgnored(splits);
  }

  /** The request-query names of the `rest.parameters` setting. */
  datatype Parameters = Parameters(limit: string, skip: string, sort: string)

  /** What the handlers do, in order: calls on the query, calls on the
      manager, and the reply. */
  datatype Effect =
    | Skip(skip: Value)
    | Limit(limit: Value)
    | SortBy(spec: SortSpec)
    | FindByQuery
    | Persist(document: Value)
    | Remove(document: Value)
    | Flush
    | Reply(body: Value, status: Option<int>)
    /** `res.return({success: false, errors}, 400)` */
    | Invalid(errors: seq<Value>)

  /** The position of a query call in `findAll`'s fixed order. */
  function Rank(e: Effect): nat
  {
    match e
    case Skip(_) => 0
    case Limit(_) => 1
    case _ => 2
  }

  /** Whether an effect is a reply. */
  predicate IsReply(e: Effect)
  {
    e.Reply? || e.Invalid?
  }

  /** The sort object of the request's sort parameter, when there is one. */
  function SortParameter(query: map<string, string>, names: Parameters): SortSpec
  {
    if names.sort in query then SortOf(Split(query[names.sort], ',')) else []
  }

  /** The calls `findAll` makes on the new query: skip, limit and sort, each
      only when its parameter is in the request query, in that order; `sort`
      is the sort object the sort parameter builds. */
  function QueryCalls(query: map<string, string>, names: Parameters, parseInt: string -> Value, sort: SortSpec): (calls: seq<Effect>)
    ensures names.skip in query ==> Skip(parseInt(query[names.skip])) in calls
    ensures names.limit in query ==> Limit(parseInt(query[names.limit])) in calls
    ensures names.sort in query ==> SortBy(sort) in calls
    ensures forall e :: e in calls ==> e.Skip? || e.Limit? || e.SortBy?
    ensures names.skip !in query ==> forall e :: e in calls ==> !e.Skip?
    ensures names.limit !in query ==> forall e :: e in calls ==> !e.Limit?
    ensures names.sort !in query ==> forall e :: e in calls ==> !e.SortBy?
    ensures forall i :: 0 < i < |calls| ==> Rank(calls[i - 1]) < Rank(calls[i])
  {
    (if names.skip in query then [Skip(parseInt(query[names.skip]))] else [])
    + (if names.limit in query then [Limit(parseInt(query[names.limit]))] else [])
    + (if names.sort in query then [SortBy(sort)] else [])
  }

  /** The reply `findAll` sends for the settled `findByQuery`: the serialised
      `documents.data`; a rejection, or an answer without `data` to read, is
      only logged. */
  function FindAllReply(found: Outcome, serialize: Value -> Value): (reply: seq<Effect>)
    reads ObjectsOf(if found.Ok? then found.value else Undefined)
    ensures |reply| <= 1
    ensures |reply| == 1 <==> found.Ok? && found.value !in {Undefined, Null}
    ensures |reply| == 1 ==> reply[0] == Reply(serialize(Read(found.value, "data")), None)
  {
    if found.Ok? && found.value !in {Undefined, Null} then [Reply(serialize(Read(found.value, "data")), None)] else []
  }

  /** `findAll(req, res)`, with the manager's `findByQuery` settled as `found`. */
  method FindAll(query: map<string, string>, names: Parameters, parseInt: string -> Value, found: Outcome, serialize: Value -> Value)
    returns (effects: seq<Effect>)
    ensures effects == QueryCalls(query, names, parseInt, SortParameter(query, names)) + [FindByQuery] + FindAllReply(found, serialize)
  {
    var skip, limit, sort, reply := [], [], [], [];
    if names.skip in query {
      skip := [Skip(parseInt(query[names.skip]))];
    }
    if names.limit in query {
      limit := [Limit(parseInt(query[names.limit]))];
    }
    if names.sort in query {
      var spec := ParseSort(query[names.sort]);
      sort := [SortBy(spec)];
    }
    if found.Ok? && found.value !in {Undefined, Null} {
      reply := [Reply(serialize(Read(found.value, "data")), None)];
    }
    effects := skip + limit + sort + [FindByQuery] + reply;
  }

  /** The body of the 400 reply for a document that is not there. */
  const Missing: Value := Rec(map["success" := Bool(false), "message" := Str("Document doesn't exist")])

  /** `find(req, res)`: exactly one reply; 400 for a document `== null`,
      500 with the error for a rejection, the serialised document otherwise. */
  function FindReply(found: Outcome, serialize: Value -> Value): (effects: seq<Effect>)
    ensures |effects| == 1 && effects[0].Reply?
    ensures effects[0].status == Some(400) <==> found.Ok? && found.value in {Undefined, Null}
    ensures effects[0].status == Some(500) <==> found.Err?
    ensures found.Ok? && found.value in {Undefined, Null} ==> effects[0].body == Missing
    ensures found.Ok? && found.value !in {Undefined, Null} ==> effects[0] == Reply(serialize(found.value), None)
    ensures found.Err? ==> effects[0].body == Rec(map["success" := Bool(false), "message" := found.error])
  {
    match found
    case Ok(document) =>
      if document in {Undefined, Null} then [Reply(Missing, Some(400))] else [Reply(serialize(document), None)]
    case Err(e) => [Reply(Rec(map["success" := Bool(false), "message" := e]), Some(500))]
  }

  /** Validate, then persist and flush: a non-empty error list replies 400
      and touches nothing; otherwise the document is persisted, then flushed,
      and the reply is sent only once the flush resolves. */
  function SaveEffects(document: Value, errors: seq<Value>, flushed: Outcome, serialize: Value -> Value): (effects: seq<Effect>)
    ensures |errors| > 0 ==> effects == [Invalid(errors)]
    ensures |errors| == 0 ==> |effects| >= 2 && effects[..2] == [Persist(document), Flush]
    ensures |errors| == 0 && flushed.Ok? ==> effects == [Persist(document), Flush, Reply(serialize(document), None)]
    ensures |errors| == 0 && flushed.Err? ==> |effects| == 2
  {
    if |errors| > 0 then [Invalid(errors)]
    else [Persist(document), Flush] + (if flushed.Ok? then [Reply(serialize(document), None)] else [])
  }

  /** `create(req, res)`, for the document the manager created from the body. */
  function CreateEffects(document: Value, errors: seq<Value>, flushed: Outcome, serialize: Value -> Value): (effects: seq<Effect>)
    ensures Persist(document) in effects <==> |errors| == 0
    ensures forall i :: 0 <= i < |effects| && effects[i].Persist? ==> effects[i].document == document
    ensures forall i :: 0 <= i < |effects| && IsReply(effects[i]) ==> i == |effects| - 1
    ensures flushed.Ok? || |errors| > 0 <==> |effects| > 0 && IsReply(effects[|effects| - 1])
  {
    SaveEffects(document, errors, flushed, serialize)
  }

  /** `update(req, res)` as written: a missing document replies 400; a found
      one is merged with the body, then saved as in create. The rejection
      handler calls `req.return`, which requests do not have, so a failed
      lookup throws inside the handler and sends no reply. */
  function UpdateEffectsAsWritten(found: Outcome, merge: Value -> Value, errors: seq<Value>, flushed: Outcome,
                                  serialize: Value -> Value): (effects: seq<Effect>)
    ensures found.Err? ==> effects == []
    ensures found.Ok? && found.value in {Undefined, Null} ==> effects == [Reply(Missing, Some(400))]
    ensures found.Ok? && found.value !in {Undefined, Null} ==> effects == SaveEffects(merge(found.value), errors, flushed, serialize)
  {
    match found
    case Ok(document) =>
      if document in {Undefined, Null} then [Reply(Missing, Some(400))]
      else SaveEffects(merge(document), errors, flushed, serialize)
    case Err(e) => []
  }

  /** `update(req, res)` replying 500 on a failed lookup, as find does. */
  function UpdateEffects(found: Outcome, merge: Value -> Value, errors: seq<Value>, flushed: Outcome,
                         serialize: Value -> Value): (effects: seq<Effect>)
    ensures found.Err? ==> effects == [Reply(Rec(map["success" := Bool(false), "message" := found.error]), Some(500))]
    ensures found.Ok? && found.value in {Undefined, Null} ==> effects == [Reply(Missing, Some(400))]
    ensures found.Ok? && found.value !in {Undefined, Null} ==> effects == SaveEffects(merge(found.value), errors, flushed, serialize)
  {
    match found
    case Ok(document) =>
      if document in {Undefined, Null} then [Reply(Missing, Some(400))]
      else SaveEffects(merge(document), errors, flushed, serialize)
    case Err(e) => [Reply(Rec(map["success" := Bool(false), "message" := e]), Some(500))]
  }

  /** The two differ exactly on a failed lookup, which as written gets no reply. */
  lemma UpdateRejectionUnanswered(found: Outcome, merge: Value -> Value, errors: seq<Value>, flushed: Outcome,
                                  serialize: Value -> Value)
    ensures (UpdateEffectsAsWritten(found, merge, errors, flushed, serialize) == UpdateEffects(found, merge, errors, flushed, serialize))
              <==> found.Ok?
    ensures found.Err? ==> UpdateEffectsAsWritten(found, merge, errors, flushed, serialize) == []
  {
    if found.Err? {
      assert |UpdateEffects(found, merge, errors, flushed, serialize)| == 1;
    }
  }

  /** `remove(req, res)`: a document `=== null` replies `{success: false}`
      without removing anything; anything else, `undefined` included, is
      removed and flushed, and `{success: true}` follows the flush. A failed
      lookup is only logged. */
  function RemoveEffects(found: Outcome, flushed: Outcome): (effects: seq<Effect>)
    ensures found.Err? ==> effects == []
    ensures found == Ok(Null) ==> effects == [Reply(Rec(map["success" := Bool(false)]), None)]
    ensures found.Ok? && found.value != Null ==>
      && |effects| >= 2 && effects[..2] == [Remove(found.value), Flush]
      && (flushed.Ok? <==> |effects| == 3)
      && (flushed.Ok? ==> effects[2] == Reply(Rec(map["success" := Bool(true)]), None))
  {
    match found
    case Err(_) => []
    case Ok(document) =>
      if document == Null then [Reply(Rec(map["success" := Bool(false)]), None)]
      else [Remove(document), Flush] + (if flushed.Ok? then [Reply(Rec(map["success" := Bool(true)]), None)] else [])
  }
}
