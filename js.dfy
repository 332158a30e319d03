/**
 * JavaScript values as the stores see them: JSON data plus `undefined`,
 * with the three operations the stores rely on — truthiness, property
 * reads and writes (strict mode), and object spread (`{ ...a, ...b }`).
 */
module Js {

  datatype Option<+T> = None | Some(value: T)

  /** A JSON value. Numbers are reals; NaN and -0 cannot be written in JSON. */
  datatype Json =
    | JNull
    | JBool(b: bool)
    | JNum(n: real)
    | JStr(s: string)
    | JArr(items: seq<Json>)
    | JObj(fields: map<string, Json>)

  /** A JavaScript value that is either `undefined` or a JSON value. */
  datatype Value = Undefined | Defined(json: Json)

  /** A record object such as a PocketBase user record. */
  type Record = map<string, Json>

  /** `!!v`: false exactly for undefined, null, false, 0 and the empty string. */
  predicate Truthy(v: Value)
    ensures !Truthy(v) <==>
              v in {Undefined, Defined(JNull), Defined(JBool(false)), Defined(JNum(0.0)), Defined(JStr(""))}
    ensures Nullish(v) ==> !Truthy(v)
  {
    match v
    case Undefined => false
    case Defined(j) =>
      match j
      case JNull => false
      case JBool(b) => b
      case JNum(n) => n != 0.0
      case JStr(s) => s != ""
      case JArr(_) => true
      case JObj(_) => true
  }

  /** `v == null` in the loose sense: reading a property of these throws. */
  predicate Nullish(v: Value)
  {
    v == Undefined || v == Defined(JNull)
  }

  /** `obj[key]` on an object known to exist. */
  function Lookup(obj: map<string, Json>, key: string): (r: Value)
    ensures r.Defined? <==> key in obj
    ensures key in obj ==> r.json == obj[key]
  {
    if key in obj then Defined(obj[key]) else Undefined
  }

  /** The outcome of a property read: a TypeError or the value read. */
  datatype Read = ReadThrew | Got(value: Value)

  /**
   * `v[key]` for a property name the stores use. Reading a property of
   * undefined or null throws; an object yields its field or undefined;
   * any other value yields undefined (named properties of arrays, strings,
   * numbers and booleans are absent).
   */
  function GetProp(v: Value, key: string): (r: Read)
    ensures r.ReadThrew? <==> Nullish(v)
    ensures v.Defined? && v.json.JObj? ==> r == Got(Lookup(v.json.fields, key))
    ensures !Nullish(v) && !(v.Defined? && v.json.JObj?) ==> r == Got(Undefined)
  {
    match v
    case Undefined => ReadThrew
    case Defined(j) =>
      match j
      case JNull => ReadThrew
      case JObj(m) => Got(Lookup(m, key))
      case _ => Got(Undefined)
  }

  /** The outcome of a property write: a TypeError or the updated target. */
  datatype Write = WriteThrew | Wrote(target: Json)

  /**
   * `v[key] = x` in strict mode. Objects gain or replace the field; arrays
   * take a named property that JSON cannot hold, so their JSON value is
   * unchanged; undefined, null and primitives throw a TypeError.
   */
  function SetProp(v: Value, key: string, x: Json): (r: Write)
    ensures r.Wrote? <==> v.Defined? && (v.json.JObj? || v.json.JArr?)
    ensures r.Wrote? && v.json.JObj? ==>
              r.target.JObj? && key in r.target.fields && r.target.fields[key] == x &&
              r.target.fields.Keys == v.json.fields.Keys + {key} &&
              forall k :: k in v.json.fields && k != key ==> r.target.fields[k] == v.json.fields[k]
    ensures r.Wrote? && v.json.JArr? ==> r.target == v.json
  {
    match v
    case Undefined => WriteThrew
    case Defined(j) =>
      match j
      case JObj(m) => Wrote(JObj(m[key := x]))
      case JArr(_) => Wrote(j)
      case _ => WriteThrew
  }

  /** The character of one decimal digit. */
  function Digit(d: nat): (c: char)
    requires d < 10
    ensures '0' <= c <= '9'
  {
    ('0' as int + d) as char
  }

  /** The canonical decimal spelling of `n`, the key of index `n` in an array or string. */
  function DecimalString(n: nat): (s: string)
    ensures |s| >= 1
    ensures n >= 10 ==> |s| >= 2
  {
    if n < 10 then [Digit(n)] else DecimalString(n / 10) + [Digit(n % 10)]
  }

  /** Different indices have different keys. */
  lemma {:induction false} DecimalStringInjective(a: nat, b: nat)
    requires DecimalString(a) == DecimalString(b)
    ensures a == b
  {
    var s := DecimalString(a);
    if a >= 10 && b >= 10 {
      assert s[|s| - 1] == Digit(a % 10) == Digit(b % 10);
      assert DecimalString(a / 10) == s[..|s| - 1] == DecimalString(b / 10);
      DecimalStringInjective(a / 10, b / 10);
    }
  }

  /** The own enumerable keys of an array: `{ ...[x, y] }` is `{ "0": x, "1": y }`. */
  function IndexKeys(s: seq<Json>): (m: map<string, Json>)
    ensures forall i :: 0 <= i < |s| ==> DecimalString(i) in m && m[DecimalString(i)] == s[i]
    ensures forall k :: k in m ==> exists i :: 0 <= i < |s| && k == DecimalString(i)
  {
    if s == [] then map[]
    else
      var n := |s| - 1;
      assert forall i :: 0 <= i < n ==> DecimalString(i) != DecimalString(n) by {
        forall i | 0 <= i < n && DecimalString(i) == DecimalString(n) {
          DecimalStringInjective(i, n);
        }
      }
      IndexKeys(s[..n])[DecimalString(n) := s[n]]
  }

  /** The characters of a string as one-character strings, as a string spreads. */
  function Chars(s: string): (r: seq<Json>)
    ensures |r| == |s|
    ensures forall i :: 0 <= i < |s| ==> r[i] == JStr([s[i]])
  {
    seq(|s|, i requires 0 <= i < |s| => JStr([s[i]]))
  }

  /**
   * The entries `{ ...v }` copies: an object's fields, an array's or a
   * string's elements under their decimal indices, nothing for the rest.
   */
  function Spread(v: Value): (m: map<string, Json>)
    ensures v.Defined? && v.json.JObj? ==> m == v.json.fields
    ensures v.Defined? && v.json.JArr? ==>
              forall i :: 0 <= i < |v.json.items| ==> DecimalString(i) in m && m[DecimalString(i)] == v.json.items[i]
    ensures v.Defined? && v.json.JArr? ==>
              forall k :: k in m ==> exists i :: 0 <= i < |v.json.items| && k == DecimalString(i)
    ensures v.Defined? && v.json.JStr? ==>
              forall i :: 0 <= i < |v.json.s| ==> DecimalString(i) in m && m[DecimalString(i)] == JStr([v.json.s[i]])
    ensures v.Defined? && v.json.JStr? ==>
              forall k :: k in m ==> exists i :: 0 <= i < |v.json.s| && k == DecimalString(i)
    ensures !(v.Defined? && (v.json.JObj? || v.json.JArr? || v.json.JStr?)) ==> m == map[]
  {
    match v
    case Undefined => map[]
    case Defined(j) =>
      match j
      case JObj(m) => m
      case JArr(s) => IndexKeys(s)
      case JStr(s) => IndexKeys(Chars(s))
      case _ => map[]
  }
}
