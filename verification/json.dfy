/**
 A parsed JSON value as the browser holds it after `JSON.parse`, with the
 JavaScript operators the schema validator applies to it: truthiness, `typeof`,
 property access and `Object.entries`.

 An object is its list of properties in JavaScript enumeration order; the
 values `JSON.parse` produces have distinct keys (`WellFormed`).
 */
module Json {
  import opened JsBase

  datatype Json =
    | JNull
    | JBool(b: bool)
    | JNumber(n: int)
    | JString(s: string)
    | JArray(items: seq<Json>)
    | JObject(fields: seq<(string, Json)>)

  /** JavaScript truthiness: null, false, 0 and "" are falsy; arrays and objects, even empty, are truthy. */
  predicate Truthy(v: Json)
    ensures !Truthy(v) <==> v == JNull || v == JBool(false) || v == JNumber(0) || v == JString("")
  {
    match v
    case JNull => false
    case JBool(b) => b
    case JNumber(n) => n != 0
    case JString(s) => TruthyString(s)
    case JArray(_) => true
    case JObject(_) => true
  }

  /** Truthiness of a property read, where a missing property is `undefined` (falsy). */
  predicate TruthyProp(o: Option<Json>) {
    o.Some? && Truthy(o.value)
  }

  /**
   `typeof v === 'object'`: true for null, arrays and objects. Guarded by
   truthiness, as in `!v || typeof v !== 'object'`, it admits exactly the
   arrays and objects.
   */
  predicate IsObjectType(v: Json)
    ensures v.JNull? ==> IsObjectType(v)
    ensures Truthy(v) && IsObjectType(v) <==> v.JArray? || v.JObject?
  {
    v.JNull? || v.JArray? || v.JObject?
  }

  /** `typeof v === 'string'`. */
  predicate IsStringType(v: Json) {
    v.JString?
  }

  /** No key occurs twice in a property list. */
  predicate DistinctKeys(fields: seq<(string, Json)>) {
    forall i, j :: 0 <= i < j < |fields| ==> fields[i].0 != fields[j].0
  }

  /**
   A value `JSON.parse` can produce: every object, at any depth, has distinct
   keys (the parse keeps one property per key).
   */
  predicate WellFormed(v: Json) {
    match v
    case JArray(items) => forall i :: 0 <= i < |items| ==> WellFormed(items[i])
    case JObject(fields) => DistinctKeys(fields) && forall i :: 0 <= i < |fields| ==> WellFormed(fields[i].1)
    case _ => true
  }

  /**
   The value stored under `key` in a property list, if any; with distinct keys
   it is the one value stored under `key`.
   */
  function Lookup(fields: seq<(string, Json)>, key: string): (r: Option<Json>)
    ensures r.Some? <==> exists i :: 0 <= i < |fields| && fields[i].0 == key
    ensures r.Some? ==> exists i :: 0 <= i < |fields| && fields[i] == (key, r.value)
    ensures DistinctKeys(fields) ==> forall i :: 0 <= i < |fields| && fields[i].0 == key ==> r == Some(fields[i].1)
  {
    if |fields| == 0 then None
    else if fields[0].0 == key then Some(fields[0].1)
    else
      var r := Lookup(fields[1..], key);
      assert forall i :: 0 <= i < |fields| - 1 ==> fields[1..][i] == fields[i + 1];
      r
  }

  /**
   `v.key` for a non-null value: the property of an object, `undefined` for
   every other kind of value (none of them has the properties the client reads).
   */
  function Prop(v: Json, key: string): (r: Option<Json>)
    requires !v.JNull?
    ensures !v.JObject? ==> r == None
  {
    if v.JObject? then Lookup(v.fields, key) else None
  }

  /**
   `Object.entries(v)` for an array or object: the (key, value) pairs in
   enumeration order, arrays keyed by their indices written in decimal.
   */
  function Entries(v: Json): (r: seq<(string, Json)>)
    requires v.JArray? || v.JObject?
    ensures v.JObject? ==> r == v.fields
    ensures v.JArray? ==> |r| == |v.items|
    ensures v.JArray? ==> forall i :: 0 <= i < |r| ==> r[i] == (DecimalString(i), v.items[i])
    ensures WellFormed(v) ==> DistinctKeys(r)
  {
    if v.JObject? then v.fields
    else
      forall i, j | 0 <= i < j < |v.items| ensures DecimalString(i) != DecimalString(j) {
        DecimalStringInjective(i, j);
      }
      seq(|v.items|, i requires 0 <= i < |v.items| => (DecimalString(i), v.items[i]))
  }
}
