/**
  JavaScript values as the relay code sees them: what `JSON.parse` returns for a
  frame read off a WebSocket, plus `undefined` for a property that is absent.
  Numbers are modelled as integers. Also the few pieces of JavaScript semantics the
  relay code leans on: truthiness, property reads that throw on null, `Array.prototype.join`
  throwing on an element it cannot turn into text, and spreading `...args`.
*/
module Js {

  datatype Option<+T> = None | Some(value: T)

  datatype Value =
    | Undefined
    | Null
    | Bool(b: bool)
    | Num(n: int)
    | Str(s: string)
    | Arr(items: seq<Value>)
    | Obj(fields: map<string, Value>)

  /** `!!v` */
  predicate Truthy(v: Value) {
    match v
    case Undefined => false
    case Null => false
    case Bool(b) => b
    case Num(n) => n != 0
    case Str(s) => s != ""
    case Arr(_) => true
    case Obj(_) => true
  }

  /** `m.key` on an object literal held as a map: a missing key reads as `undefined`. */
  function Field(m: map<string, Value>, key: string): Value {
    if key in m then m[key] else Undefined
  }

  /** `v.key` on a value that is neither null nor undefined. None of the keys the relay
      code reads is an own property of a primitive or an array. */
  function Read(v: Value, key: string): Value {
    if v.Obj? then Field(v.fields, key) else Undefined
  }

  /** `v.key`: None when the read throws a TypeError (v is null or undefined). */
  function Get(v: Value, key: string): Option<Value> {
    if v.Null? || v.Undefined? then None else Some(Read(v, key))
  }

  /** `v.type === t`, when the read does not throw. */
  predicate TypeIs(v: Value, t: string) {
    Get(v, "type") == Some(Str(t))
  }

  /** Whether turning `v` into text inside `Array.prototype.join` succeeds. An object from
      JSON.parse with an own "toString" key has nothing callable to convert it with, so
      the conversion throws a TypeError; arrays are joined element by element. */
  predicate Stringable(v: Value)
    decreases v
  {
    match v
    case Obj(m) => "toString" !in m
    case Arr(xs) => forall i | 0 <= i < |xs| :: Stringable(xs[i])
    case _ => true
  }

  /** Whether `args.join(', ')` returns rather than throws: only an array has `join`. */
  predicate JoinOk(args: Value) {
    args.Arr? && Stringable(args)
  }

  /** The argument list `f(...v)` passes: an array gives its elements, a string its
      characters; anything else is not iterable and the call throws (None). */
  function Spread(v: Value): (r: Option<seq<Value>>)
    ensures v.Arr? ==> r == Some(v.items)
    ensures r.Some? <==> v.Arr? || v.Str?
  {
    match v
    case Arr(xs) => Some(xs)
    case Str(s) => Some(seq(|s|, i requires 0 <= i < |s| => Str([s[i]])))
    case _ => None
  }

  /** The `readyState` of a `ws` socket. */
  datatype ReadyState = Connecting | Open | Closing | Closed

  /** What `JSON.parse(data)` did with one WebSocket frame. */
  datatype Frame = Malformed | Json(value: Value)

  /** A promise, as far as its creator can observe it. */
  datatype Outcome = Pending | Resolved | Rejected(reason: string)

  /** A registered handler, identified by reference (a JavaScript Set compares functions by identity). */
  type HandlerId = nat

  predicate Distinct<T(==)>(s: seq<T>) {
    forall i, j | 0 <= i < j < |s| :: s[i] != s[j]
  }

  /** `set.add(x)` on a JavaScript Set kept in insertion order. */
  function AddOnce<T(==)>(s: seq<T>, x: T): (r: seq<T>)
    ensures Distinct(s) ==> Distinct(r)
    ensures x in r && |s| <= |r| <= |s| + 1 && r[..|s|] == s
    ensures x in s ==> r == s
  {
    if x in s then s else s + [x]
  }
}
