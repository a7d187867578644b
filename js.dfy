/**
 * The JavaScript world the proxies live in, reduced to what they observe:
 * values, objects with own and inherited properties, calls into the bass
 * library, and how such a call completes.
 */
module Js {

  datatype Option<+T> = None | Some(value: T)

  /** A JavaScript value. Plain object literals built by the code are values
      (Rec); objects with an identity that other code may change are
      references (Obj for objects whose properties the model reads, Ref for
      objects it never looks inside: proxies, containers, requests). */
  datatype Value =
    | Undefined
    | Null
    | Bool(b: bool)
    | Num(n: int)
    | Str(s: string)
    | Rec(fields: map<string, Value>)
    | Obj(obj: JsObject)
    | Fn(name: string)
    | Ref(ref: object)

  /** JavaScript truthiness (NaN is not modelled). */
  predicate Truthy(v: Value)
  {
    match v
    case Undefined => false
    case Null => false
    case Bool(b) => b
    case Num(n) => n != 0
    case Str(s) => s != ""
    case _ => true
  }

  /** `v instanceof Object` */
  predicate IsObject(v: Value)
  {
    v.Rec? || v.Obj? || v.Fn? || v.Ref?
  }

  /** The error value a TypeError stands for. */
  const TypeError: Value := Rec(map["name" := Str("TypeError")])

  /** How a call completes: normally with a value, or by throwing. */
  datatype Completion<+T> = Normal(value: T) | Throw(error: Value)

  /** How a promise settles (or a synchronous library call returns or throws). */
  datatype Outcome = Ok(value: Value) | Err(error: Value)

  /** A call into the bass library: the member called and its arguments. */
  datatype Call = Call(op: string, args: seq<Value>)

  /** One entry of the library's call log: which value received which call. */
  datatype Invocation = Invocation(receiver: Value, call: Call)

  /** The i-th entry of an `arguments` object, `undefined` when not passed. */
  function Arg(args: seq<Value>, i: nat): (v: Value)
    ensures i < |args| ==> v == args[i]
    ensures i >= |args| ==> v == Undefined
  {
    if i < |args| then args[i] else Undefined
  }

  function Digit(d: nat): char
    requires d < 10
  {
    "0123456789"[d]
  }

  function NatToString(n: nat): (s: string)
    ensures |s| > 0
  {
    if n < 10 then [Digit(n)] else NatToString(n / 10) + [Digit(n % 10)]
  }

  /** String conversion as `'' + v` performs it. */
  function ToJsString(v: Value): string
  {
    match v
    case Undefined => "undefined"
    case Null => "null"
    case Bool(b) => if b then "true" else "false"
    case Num(n) => if n < 0 then "-" + NatToString(-n) else NatToString(n)
    case Str(s) => s
    case Fn(name) => "function " + name + "() { [native code] }"
    case _ => "[object Object]"
  }

  /** The objects whose state a property read on `v` looks at. */
  function ObjectsOf(v: Value): set<object>
  {
    if v.Obj? then {v.obj} else {}
  }

  /** `v[p]` for an object value; `undefined` for what the model does not look inside. */
  function Read(v: Value, p: string): Value
    reads ObjectsOf(v)
  {
    match v
    case Rec(m) => if p in m then m[p] else Undefined
    case Obj(o) => o.Get(p)
    case _ => Undefined
  }

  /** `v.p` as an expression: throws a TypeError on `undefined` and `null`. */
  function PropertyOf(v: Value, p: string): (r: Completion<Value>)
    reads ObjectsOf(v)
    ensures r.Throw? <==> v.Undefined? || v.Null?
    ensures r.Normal? ==> r.value == Read(v, p)
  {
    if v.Undefined? || v.Null? then Throw(TypeError) else Normal(Read(v, p))
  }

  /** The names every object inherits from Object.prototype. */
  const ObjectPrototypeNames: set<string> :=
    {"constructor", "toString", "toLocaleString", "valueOf", "hasOwnProperty",
     "isPrototypeOf", "propertyIsEnumerable", "__defineGetter__", "__defineSetter__",
     "__lookupGetter__", "__lookupSetter__", "__proto__"}

  /** An object with an identity, such as one the bass library hands out: its
      own enumerable properties can change; its prototype chain is fixed. */
  class JsObject {
    var props: map<string, Value>
    const protoProps: map<string, Value>
    const chainProps: map<string, Value>

    constructor(props: map<string, Value>, protoProps: map<string, Value>, chainProps: map<string, Value>)
      ensures this.props == props && this.protoProps == protoProps && this.chainProps == chainProps
    {
      this.props := props;
      this.protoProps := protoProps;
      this.chainProps := chainProps;
    }

    /** `this[p]`: own property first, then the prototype chain. */
    function Get(p: string): Value
      reads this
    {
      if p in props then props[p]
      else if p in protoProps then protoProps[p]
      else if p in chainProps then chainProps[p]
      else Undefined
    }

    /** `Object.keys(this)` together with `Object.getOwnPropertyNames` of its
        immediate prototype. */
    function KeysAndProtoNames(): set<string>
      reads this
    {
      props.Keys + protoProps.Keys
    }
  }

  /** The bass library as the proxies see it: every call made into it, in
      order, and its answers, which this model does not interpret. */
  class Library {
    var log: seq<Invocation>
    const answer: (nat, Invocation) -> Outcome

    constructor(answer: (nat, Invocation) -> Outcome)
      ensures log == [] && this.answer == answer
    {
      log := [];
      this.answer := answer;
    }

    /** Call `call.op` on `receiver`; the member is known to be a function. */
    method Invoke(receiver: Value, call: Call) returns (r: Outcome)
      modifies this
      ensures log == old(log) + [Invocation(receiver, call)]
      ensures r == answer(|old(log)|, Invocation(receiver, call))
    {
      r := answer(|log|, Invocation(receiver, call));
      log := log + [Invocation(receiver, call)];
    }
  }
  /** A continuation such as a listener's `next`: only how often it is called is observed. */
  class Callback {
    var calls: nat

    constructor()
      ensures calls == 0
    {
      calls := 0;
    }

    method Call()
      modifies this
      ensures calls == old(calls) + 1
    {
      calls := calls + 1;
    }
  }

  /** A synchronous call's answer as a completion: a return or a throw. */
  function Settle(o: Outcome): (c: Completion<Value>)
    ensures c.Normal? <==> o.Ok?
    ensures o.Ok? ==> c.value == o.value
    ensures o.Err? ==> c.error == o.error
  {
    match o
    case Ok(v) => Normal(v)
    case Err(e) => Throw(e)
  }

  /** `receiver.op(...args)` on a library object: a TypeError when the
      receiver is `undefined` or `null` or the member is not a function;
      otherwise exactly one call, whose answer is returned or thrown. */
  method CallSync(library: Library, receiver: Value, call: Call) returns (r: Completion<Value>)
    modifies library
    ensures var member := old(PropertyOf(receiver, call.op));
      && (!(member.Normal? && member.value.Fn?) ==> r == Throw(TypeError) && library.log == old(library.log))
      && (member.Normal? && member.value.Fn? ==>
            && library.log == old(library.log) + [Invocation(receiver, call)]
            && r == Settle(library.answer(|old(library.log)|, Invocation(receiver, call))))
  {
    var member := PropertyOf(receiver, call.op);
    if !(member.Normal? && member.value.Fn?) {
      return Throw(TypeError);
    }
    var o := library.Invoke(receiver, call);
    r := Settle(o);
  }
}
