/**
 * JavaScript values as the router sees them: request parameters, query strings,
 * bodies, adapter results and configuration entries. Numbers are integers;
 * functions are not values here (adapters are modelled in module Adapters).
 */
module JsValue {

  datatype Option<+T> = None | Some(value: T)

  datatype Result<+T, +E> = Ok(value: T) | Err(error: E)

  datatype Value =
    | Undefined
    | Null
    | Bool(b: bool)
    | Num(n: int)
    | Str(s: string)
    | Arr(items: seq<Value>)
    | Obj(fields: map<string, Value>)

  /** JavaScript truthiness: `if (v)`. */
  predicate Truthy(v: Value) {
    match v
    case Undefined => false
    case Null => false
    case Bool(b) => b
    case Num(n) => n != 0
    case Str(s) => s != ""
    case Arr(_) => true
    case Obj(_) => true
  }

  /** `typeof v === 'object' && v !== null && !Array.isArray(v)` (lib/verify-adapter-response.js:48-54). */
  predicate IsObject(v: Value) {
    v.Obj?
  }

  /** The `is-object` package: `typeof v === 'object' && v !== null`, so arrays pass too. */
  predicate IsObjectLike(v: Value) {
    v.Obj? || v.Arr?
  }

  /** `v.hasOwnProperty(key)` for the named (non-index) keys the router asks about. */
  predicate HasOwn(v: Value, key: string) {
    v.Obj? && key in v.fields
  }

  /** Property read `v[key]` for a named key; anything that is not a plain object has none. */
  function Get(v: Value, key: string): Value {
    if v.Obj? && key in v.fields then v.fields[key] else Undefined
  }

  /** `_.get(v, path)` with the path already split at its dots. */
  function GetPath(v: Value, path: seq<string>): Value
    decreases |path|
  {
    if path == [] then v else GetPath(Get(v, path[0]), path[1..])
  }

  /** A JSON object with one key. */
  function Single(key: string, v: Value): Value {
    Obj(map[key := v])
  }

  /** The `{msg: ...}` bodies the router answers with. */
  function MsgBody(text: string): Value {
    Single("msg", Str(text))
  }

  /** `v || {}`, the defaulting of an optional object option. */
  function OrEmptyObject(v: Value): (r: Value)
    ensures Truthy(r)
    ensures Truthy(v) ==> r == v
    ensures !Truthy(v) ==> r == Obj(map[])
  {
    if Truthy(v) then v else Obj(map[])
  }

  function Digit(d: nat): char
    requires d < 10
  {
    "0123456789"[d]
  }

  /** Decimal rendering of a natural number, as `String(n)` does. */
  function NatToString(n: nat): (s: string)
    ensures 1 <= |s|
    ensures |s| == 1 <==> n < 10
    decreases n
  {
    if n < 10 then [Digit(n)] else NatToString(n / 10) + [Digit(n % 10)]
  }

  function IntToString(i: int): string {
    if i < 0 then "-" + NatToString(-i) else NatToString(i)
  }

  lemma DigitInjective(a: nat, b: nat)
    requires a < 10 && b < 10 && Digit(a) == Digit(b)
    ensures a == b
  {
  }

  /** Different numbers never print the same: the property that keeps generated ids distinct. */
  lemma {:induction false} NatToStringInjective(a: nat, b: nat)
    requires NatToString(a) == NatToString(b)
    ensures a == b
  {
    if a < 10 && b < 10 {
      DigitInjective(a, b);
    } else if a >= 10 && b >= 10 {
      var s := NatToString(a);
      assert s == NatToString(a / 10) + [Digit(a % 10)];
      assert s == NatToString(b / 10) + [Digit(b % 10)];
      assert s[..|s| - 1] == NatToString(a / 10);
      assert s[..|s| - 1] == NatToString(b / 10);
      NatToStringInjective(a / 10, b / 10);
      DigitInjective(a % 10, b % 10);
    }
  }

  /** `String(v)` as used for property keys (`store[params.id]`) and loose comparison. */
  function ToPropertyKey(v: Value): string
    decreases v, 1
  {
    match v
    case Undefined => "undefined"
    case Null => "null"
    case Bool(b) => if b then "true" else "false"
    case Num(n) => IntToString(n)
    case Str(s) => s
    case Arr(items) => JoinElements(items)
    case Obj(_) => "[object Object]"
  }

  /** `Array.prototype.join(',')`, where null and undefined elements print as empty. */
  function JoinElements(items: seq<Value>): string
    decreases items, 0
  {
    if items == [] then ""
    else
      var head := if items[0].Undefined? || items[0].Null? then "" else ToPropertyKey(items[0]);
      if |items| == 1 then head else head + "," + JoinElements(items[1..])
  }

  /** `v == true` with JavaScript's loose equality, for the spellings the model covers. */
  predicate LooseEqualsTrue(v: Value) {
    match v
    case Bool(b) => b
    case Num(n) => n == 1
    case Str(s) => s == "1"
    case Arr(_) => ToPropertyKey(v) == "1"
    case _ => false
  }

  /** `_.keys(v)`: own enumerable keys; arrays and strings list their indices. */
  function KeySet(v: Value): set<string> {
    match v
    case Obj(fields) => fields.Keys
    case Arr(items) => set i | 0 <= i < |items| :: NatToString(i)
    case Str(s) => set i | 0 <= i < |s| :: NatToString(i)
    case _ => {}
  }
}
