/**
  JavaScript values as they travel over the socket and through the tool
  handlers: the JSON values plus `undefined`.  Numbers are integers, since
  every quantity the modelled code computes with is a count or a time in
  milliseconds.
 */
module Json {

  datatype Option<+T> = None | Some(value: T)

  datatype Value =
    | Undefined
    | Null
    | Bool(b: bool)
    | Num(n: int)
    | Str(s: string)
    | Arr(items: seq<Value>)
    | Obj(fields: map<string, Value>)

  /** JavaScript truthiness: `undefined`, `null`, `false`, `0` and `""` are falsy. */
  predicate Truthy(v: Value) {
    match v
    case Undefined => false
    case Null => false
    case Bool(b) => b
    case Num(n) => n != 0
    case Str(s) => s != ""
    case Arr(_) => true
    case Obj(_) => true
  }

  /** `null` and `undefined`: reading a property of them throws a TypeError. */
  predicate Nullish(v: Value) {
    v.Undefined? || v.Null?
  }

  /**
    The property read `v.k` for the property names this code reads
    (`error`, `taskId`, `updates`, `projectId`, `message`, ...): an own
    property of an object, and `undefined` for every other non-nullish value.
   */
  function Get(v: Value, k: string): Value {
    if v.Obj? && k in v.fields then v.fields[k] else Undefined
  }

  /** Reading back either property of a two-property object. */
  lemma GetOfPair(k1: string, v1: Value, k2: string, v2: Value)
    requires k1 != k2
    ensures Get(Obj(map[k1 := v1, k2 := v2]), k1) == v1
    ensures Get(Obj(map[k1 := v1, k2 := v2]), k2) == v2
  {
  }

  /** The property `length`, as read on a non-nullish value. */
  function Length(v: Value): Value {
    match v
    case Arr(items) => Num(|items|)
    case Str(s) => Num(|s|)
    case Obj(m) => if "length" in m then m["length"] else Undefined
    case _ => Undefined
  }

  function Digits(n: nat): string
    decreases n
  {
    var d := ["0", "1", "2", "3", "4", "5", "6", "7", "8", "9"][n % 10];
    if n < 10 then d else Digits(n / 10) + d
  }

  /** Decimal rendering of an integer, as `String(n)` gives it. */
  function IntToString(n: int): string {
    if n < 0 then "-" + Digits(-n) else Digits(n)
  }

  /** Array.prototype.join(","): nullish elements render as the empty string. */
  function Join(items: seq<Value>): string
    decreases items, 0
  {
    if items == [] then ""
    else
      var head := if Nullish(items[0]) then "" else ToJsString(items[0]);
      if |items| == 1 then head else head + "," + Join(items[1..])
  }

  /** `String(v)`, which is also the message `new Error(v)` carries. */
  function ToJsString(v: Value): string
    decreases v, 1
  {
    match v
    case Undefined => "undefined"
    case Null => "null"
    case Bool(b) => if b then "true" else "false"
    case Num(n) => IntToString(n)
    case Str(s) => s
    case Arr(items) => Join(items)
    case Obj(_) => "[object Object]"
  }

  // ---------------------------------------------------------------------------
  // Values on the socket

  /**
    A value as the other end of the socket receives it.  Socket.IO carries
    the arguments of an emit and of an acknowledgement as a JSON array, so
    `undefined` arrives as `null`, at the top and as an array item, and an
    object property holding `undefined` is dropped.
   */
  function OnWire(v: Value): Value
    decreases v
  {
    match v
    case Undefined => Null
    case Arr(items) => Arr(seq(|items|, i requires 0 <= i < |items| => OnWire(items[i])))
    case Obj(m) => Obj(map k | k in m && !m[k].Undefined? :: OnWire(m[k]))
    case _ => v
  }

  /** A value with no `undefined` anywhere inside it. */
  predicate Defined(v: Value)
    decreases v
  {
    match v
    case Undefined => false
    case Arr(items) => forall i :: 0 <= i < |items| ==> Defined(items[i])
    case Obj(m) => forall k :: k in m ==> Defined(m[k])
    case _ => true
  }

  /** What arrives is always defined, and a defined value arrives unchanged. */
  lemma {:induction false} OnWireSpec(v: Value)
    ensures Defined(OnWire(v))
    ensures Defined(v) ==> OnWire(v) == v
    decreases v
  {
    match v
    case Arr(items) =>
      forall i | 0 <= i < |items| { OnWireSpec(items[i]); }
      if Defined(v) {
        assert OnWire(v).items == items;
      }
    case Obj(m) =>
      forall k | k in m { OnWireSpec(m[k]); }
      if Defined(v) {
        assert OnWire(v).fields == m;
      }
    case _ =>
  }

  /** Sending a value a second time changes nothing more. */
  lemma OnWireIdempotent(v: Value)
    ensures OnWire(OnWire(v)) == OnWire(v)
  {
    OnWireSpec(v);
    OnWireSpec(OnWire(v));
  }

  /** Truthiness survives the socket. */
  lemma TruthyOnWire(v: Value)
    ensures Truthy(OnWire(v)) == Truthy(v)
    ensures Nullish(OnWire(v)) == Nullish(v)
  {
  }

  /** A property read on what arrives: a property that held `undefined` is gone, any other arrives converted. */
  lemma GetOnWire(v: Value, k: string)
    ensures Get(OnWire(v), k) == if Get(v, k).Undefined? then Undefined else OnWire(Get(v, k))
  {
  }

  /**
    `String(v)` reads the same on both ends for every value but `undefined`
    itself, since `join` renders `undefined` and `null` items alike.
   */
  lemma {:induction false} ToJsStringOnWire(v: Value)
    requires !v.Undefined?
    ensures ToJsString(OnWire(v)) == ToJsString(v)
    decreases v, 1
  {
    if v.Arr? {
      JoinOnWire(v.items);
      assert OnWire(v).items == seq(|v.items|, i requires 0 <= i < |v.items| => OnWire(v.items[i]));
    }
  }

  lemma {:induction false} JoinOnWire(items: seq<Value>)
    ensures Join(seq(|items|, i requires 0 <= i < |items| => OnWire(items[i]))) == Join(items)
    decreases items, 0
  {
    var w := seq(|items|, i requires 0 <= i < |items| => OnWire(items[i]));
    if items != [] {
      TruthyOnWire(items[0]);
      if !Nullish(items[0]) {
        ToJsStringOnWire(items[0]);
      }
      if |items| > 1 {
        var rest := items[1..];
        JoinOnWire(rest);
        assert w[1..] == seq(|rest|, i requires 0 <= i < |rest| => OnWire(rest[i]));
      }
    }
  }
}
