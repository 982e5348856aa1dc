/** JavaScript values as the four clients see them: call arguments, option
    objects, record fields and already-parsed JSON response bodies.
    Objects are ordered key/value lists whose order is JavaScript's
    enumeration order (the order of `for…in`, `Object.keys`, `qs.stringify`
    and `JSON.stringify`). */
module Js {

  datatype Option<T> = None | Some(value: T)

  /** A JavaScript value. Numbers are integers in this model. */
  datatype Value =
    | Undefined
    | Null
    | Bool(b: bool)
    | Num(n: int)
    | Str(s: string)
    | Arr(items: seq<Value>)
    | Obj(fields: seq<(string, Value)>)

  /** The own enumerable properties of a plain object, in enumeration order. */
  type Fields = seq<(string, Value)>

  /** JavaScript truthiness: what `if (v)` and `v || w` test. */
  predicate Truthy(v: Value) {
    match v
    case Undefined => false
    case Null => false
    case Bool(b) => b
    case Num(n) => n != 0
    case Str(s) => s != ""
    case Arr(_) => true
    case Obj(_) => true
  }

  /** `a || b` */
  function Or(a: Value, b: Value): Value {
    if Truthy(a) then a else b
  }

  /** `typeof v === 'object'`: null and arrays included. */
  predicate IsObjectType(v: Value) {
    v.Null? || v.Arr? || v.Obj?
  }

  /** `Object.keys(v).length` for a value of object type. */
  function KeyCount(v: Value): nat {
    match v
    case Arr(items) => |items|
    case Obj(fields) => |fields|
    case _ => 0
  }

  /** The keys of an object, in enumeration order. */
  function Keys(fs: Fields): seq<string> {
    if fs == [] then [] else [fs[0].0] + Keys(fs[1..])
  }

  /** `o[k]`: the value under `k`, or `undefined` when there is none. */
  function Get(fs: Fields, k: string): Value {
    if fs == [] then Undefined
    else if fs[0].0 == k then fs[0].1
    else Get(fs[1..], k)
  }

  /** `o.hasOwnProperty(k)` */
  predicate Has(fs: Fields, k: string) {
    k in Keys(fs)
  }

  /** `o[k] = v`: an existing key keeps its place, a new key goes last. */
  function Assign(fs: Fields, k: string, v: Value): (r: Fields)
    ensures Get(r, k) == v
    ensures forall j :: j != k ==> Get(r, j) == Get(fs, j)
    ensures forall j :: j in Keys(r) <==> j in Keys(fs) || j == k
  {
    if fs == [] then [(k, v)]
    else if fs[0].0 == k then
      assert ([(k, v)] + fs[1..])[1..] == fs[1..];
      [(k, v)] + fs[1..]
    else
      var rest := Assign(fs[1..], k, v);
      assert ([fs[0]] + rest)[1..] == rest;
      [fs[0]] + rest
  }

  /** Assignment keeps the order of the keys: an existing key stays where
      it is, a new one is appended. */
  lemma {:induction false} AssignKeys(fs: Fields, k: string, v: Value)
    ensures Keys(Assign(fs, k, v)) == if k in Keys(fs) then Keys(fs) else Keys(fs) + [k]
  {
    if fs != [] && fs[0].0 != k {
      AssignKeys(fs[1..], k, v);
      var rest := Assign(fs[1..], k, v);
      assert ([fs[0]] + rest)[1..] == rest;
      assert Keys(fs) == [fs[0].0] + Keys(fs[1..]);
    } else if fs != [] {
      assert ([(k, v)] + fs[1..])[1..] == fs[1..];
    }
  }

  /** A new key goes after all the existing ones. */
  lemma AssignNewKey(fs: Fields, k: string, v: Value)
    requires k !in Keys(fs)
    ensures Keys(Assign(fs, k, v)) == Keys(fs) + [k]
  {
    AssignKeys(fs, k, v);
  }

  /** `delete o[k]` */
  function Delete(fs: Fields, k: string): (r: Fields)
    ensures Get(r, k) == Undefined && !Has(r, k)
    ensures forall j :: j != k ==> Get(r, j) == Get(fs, j)
    ensures forall j :: j in Keys(r) <==> j in Keys(fs) && j != k
  {
    if fs == [] then []
    else if fs[0].0 == k then Delete(fs[1..], k)
    else
      var rest := Delete(fs[1..], k);
      assert ([fs[0]] + rest)[1..] == rest;
      [fs[0]] + rest
  }

  /** `v[k]` as a property read: `None` when it throws a TypeError (on
      `undefined` and `null`). Primitives and arrays have no own keys here. */
  function Prop(v: Value, k: string): (r: Option<Value>)
    ensures r.None? <==> v.Undefined? || v.Null?
    ensures v.Obj? ==> r == Some(Get(v.fields, k))
  {
    match v
    case Undefined => None
    case Null => None
    case Obj(fields) => Some(Get(fields, k))
    case _ => Some(Undefined)
  }

  function DigitChar(d: nat): char
    requires d < 10
  {
    "0123456789"[d]
  }

  function DigitValue(c: char): nat {
    if '0' <= c <= '9' then (c - '0') as nat else 0
  }

  /** The decimal rendering of a natural number, as `String(n)` gives it. */
  function NatToString(n: nat): (r: string)
    ensures |r| >= 1
    ensures forall i :: 0 <= i < |r| ==> '0' <= r[i] <= '9'
    decreases n
  {
    if n < 10 then [DigitChar(n)] else NatToString(n / 10) + [DigitChar(n % 10)]
  }

  /** An independent reading of a string of decimal digits. */
  function DigitsValue(s: string): nat {
    if s == [] then 0 else DigitsValue(s[..|s| - 1]) * 10 + DigitValue(s[|s| - 1])
  }

  /** Reading back the rendering of `n` gives `n`: row numbers are
      rendered without loss. */
  lemma {:induction false} NatToStringRoundTrip(n: nat)
    ensures DigitsValue(NatToString(n)) == n
    decreases n
  {
    var s := NatToString(n);
    if n >= 10 {
      NatToStringRoundTrip(n / 10);
      assert s[..|s| - 1] == NatToString(n / 10);
    }
  }

  /** Distinct numbers render distinctly. */
  lemma NatToStringInjective(m: nat, n: nat)
    requires NatToString(m) == NatToString(n)
    ensures m == n
  {
    NatToStringRoundTrip(m);
    NatToStringRoundTrip(n);
  }

  /** `'' + v`: the string conversion used when a field value is spliced
      into the XML. Arrays join their elements with commas, `null` and
      `undefined` elements becoming empty. */
  function JsString(v: Value): (r: string)
    ensures v.Str? ==> r == v.s
    ensures v.Num? && v.n >= 0 ==> r == NatToString(v.n)
  {
    match v
    case Undefined => "undefined"
    case Null => "null"
    case Bool(b) => if b then "true" else "false"
    case Num(n) => if n < 0 then "-" + NatToString(-n) else NatToString(n)
    case Str(s) => s
    case Arr(items) =>
      Join(seq(|items|, i requires 0 <= i < |items| =>
        if items[i].Null? || items[i].Undefined? then "" else JsString(items[i])))
    case Obj(_) => "[object Object]"
  }

  /** A number renders as its decimal digits, behind a `-` exactly when
      it is negative, and reading the digits back gives its magnitude. */
  lemma JsStringNumber(n: int)
    ensures var s := JsString(Num(n));
            |s| >= 1 && (s[0] == '-' <==> n < 0)
            && DigitsValue(if n < 0 then s[1..] else s) == (if n < 0 then -n else n)
  {
    var m: nat := if n < 0 then -n else n;
    NatToStringRoundTrip(m);
    var s := JsString(Num(n));
    if n < 0 {
      assert s == "-" + NatToString(m);
      assert s[1..] == NatToString(m);
    } else {
      assert s == NatToString(m);
      assert '0' <= s[0] <= '9';
    }
  }

  /** `parts.join(',')` */
  function Join(parts: seq<string>): string {
    if parts == [] then ""
    else if |parts| == 1 then parts[0]
    else parts[0] + "," + Join(parts[1..])
  }

  function UpperChar(c: char): char {
    if 'a' <= c <= 'z' then (c as int - 32) as char else c
  }

  /** `s.charAt(0).toUpperCase() + s.slice(1)` (ASCII letters only). */
  function Capitalize(s: string): (r: string)
    ensures |r| == |s|
    ensures s != [] ==> r[0] == UpperChar(s[0]) && r[1..] == s[1..]
    ensures s != [] && 'a' <= s[0] <= 'z' ==> 'A' <= r[0] <= 'Z'
    ensures s != [] && !('a' <= s[0] <= 'z') ==> r == s
  {
    if s == [] then [] else [UpperChar(s[0])] + s[1..]
  }

  /** Capitalising twice is capitalising once. */
  lemma CapitalizeIdempotent(s: string)
    ensures Capitalize(Capitalize(s)) == Capitalize(s)
  {
  }
}
