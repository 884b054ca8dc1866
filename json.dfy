/** JavaScript values as they reach the core: the JSON data model plus
    `undefined`, written `None` (an `Option<Json>`). Numbers are integers. */
module Js {
  import opened Wrappers
  import opened Text

  datatype Json =
    | JNull
    | JBool(b: bool)
    | JNum(n: int)
    | JStr(s: string)
    | JArr(items: seq<Json>)
    | JObj(fields: seq<(string, Json)>)

  /** A JavaScript value: `None` is `undefined`. */
  type Value = Option<Json>

  /** JavaScript truthiness: `undefined`, `null`, `false`, `0` and `""` are falsy. */
  predicate Truthy(v: Value) {
    match v
    case None => false
    case Some(j) =>
      match j
      case JNull => false
      case JBool(b) => b
      case JNum(n) => n != 0
      case JStr(s) => s != ""
      case JArr(_) => true
      case JObj(_) => true
  }

  /** `a || b`. */
  function Or(a: Value, b: Value): (r: Value)
    ensures Truthy(a) ==> r == a
    ensures !Truthy(a) ==> r == b
    ensures Truthy(r) <==> Truthy(a) || Truthy(b)
  {
    if Truthy(a) then a else b
  }

  /** `a ?? b`: only `undefined` and `null` fall through. */
  function Nullish(a: Value, b: Value): (r: Value)
    ensures (a.None? || a == Some(JNull)) ==> r == b
    ensures !(a.None? || a == Some(JNull)) ==> r == a
    ensures IsNullish(r) <==> IsNullish(a) && IsNullish(b)
  {
    if a.None? || a == Some(JNull) then b else a
  }

  /** `undefined` or `null`: the values whose property access throws. */
  predicate IsNullish(v: Value) {
    v.None? || v == Some(JNull)
  }

  /** `typeof v === "object"` (which includes `null` and arrays). */
  predicate IsObjectType(v: Value) {
    v.Some? && (v.value.JNull? || v.value.JArr? || v.value.JObj?)
  }

  predicate IsArray(v: Value) {
    v.Some? && v.value.JArr?
  }

  predicate IsString(v: Value) {
    v.Some? && v.value.JStr?
  }

  /** Value stored under `key` among `fields`; the first entry wins. */
  function Lookup(fields: seq<(string, Json)>, key: string): Value {
    if fields == [] then None
    else if fields[0].0 == key then Some(fields[0].1)
    else Lookup(fields[1..], key)
  }

  /** `Lookup` finds the first entry with the key, if there is one. */
  lemma {:induction false} LookupFinds(fields: seq<(string, Json)>, key: string)
    ensures Lookup(fields, key).Some? <==> exists i :: 0 <= i < |fields| && fields[i].0 == key
    ensures Lookup(fields, key).Some? ==>
      exists i :: 0 <= i < |fields| && fields[i] == (key, Lookup(fields, key).value)
        && forall k :: 0 <= k < i ==> fields[k].0 != key
  {
    if fields != [] && fields[0].0 != key {
      LookupFinds(fields[1..], key);
      assert forall i :: 1 <= i < |fields| ==> fields[i] == fields[1..][i - 1];
      if Lookup(fields, key).Some? {
        var i :| 0 <= i < |fields[1..]| && fields[1..][i] == (key, Lookup(fields, key).value)
          && forall k :: 0 <= k < i ==> fields[1..][k].0 != key;
        assert fields[i + 1] == fields[1..][i];
      }
    }
  }

  /** `v[key]` (or `v?.key`) for a data property of a plain object; every other
      value has none of the properties the core reads, so gives `undefined`.
      Callers check `IsNullish` first where the source would throw. */
  function Get(v: Value, key: string): Value {
    if v.Some? && v.value.JObj? then Lookup(v.value.fields, key) else None
  }

  /** The array stored under `key`, or the empty list if it is not an array. */
  function ArrayOf(v: Value): seq<Json> {
    if v.Some? && v.value.JArr? then v.value.items else []
  }

  /** String conversion as a template literal or `String(v)` performs it.
      Arrays join their elements with `,`, writing `null` and `undefined`
      elements as the empty string; plain objects become `[object Object]`. */
  function ToJsString(v: Value): string {
    match v
    case None => "undefined"
    case Some(j) => JsonToString(j)
  }

  function JsonToString(j: Json): string
    decreases j, 1
  {
    match j
    case JNull => "null"
    case JBool(b) => if b then "true" else "false"
    case JNum(n) => IntToString(n)
    case JStr(s) => s
    case JArr(items) => JoinElements(j, items)
    case JObj(_) => "[object Object]"
  }

  function JoinElements(ghost parent: Json, items: seq<Json>): string
    requires forall i :: 0 <= i < |items| ==> items[i] < parent
    decreases parent, 0, |items|
  {
    if items == [] then ""
    else
      var head := if items[0].JNull? then "" else JsonToString(items[0]);
      if |items| == 1 then head else head + "," + JoinElements(parent, items[1..])
  }

  /** Number coercion, as relational comparison and `Math.min` perform it;
      `None` is `NaN`. Objects and arrays go through their string form. */
  function ToNumber(v: Value): Option<int> {
    match v
    case None => None
    case Some(j) =>
      match j
      case JNull => Some(0)
      case JBool(b) => Some(if b then 1 else 0)
      case JNum(n) => Some(n)
      case JStr(s) => StringToNumber(s)
      case JArr(_) => StringToNumber(JsonToString(j))
      case JObj(_) => StringToNumber(JsonToString(j))
  }

  /** `v > n` for a number `n`: `v` is coerced, and `NaN` compares false. */
  predicate GreaterThan(v: Value, n: int) {
    var x := ToNumber(v);
    x.Some? && x.value > n
  }

  /** The error a property access on `null`/`undefined`, or a call of a
      method a value does not have, throws. */
  const TypeError: string := "TypeError"

  /** Key names in insertion order. */
  function Keys(fields: seq<(string, Json)>): seq<string> {
    seq(|fields|, i requires 0 <= i < |fields| => fields[i].0)
  }
}
