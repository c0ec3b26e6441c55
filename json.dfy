/**
 * JSON values as JavaScript sees them after `JSON.parse`, with the few
 * JavaScript operations the routes apply to them: truthiness, property
 * reads, `typeof` and `Array.isArray`.
 */
module JsonValue {
  import opened Wrappers

  /**
   * A JSON value. An object lists its members in the order JavaScript
   * enumerates its keys (`Object.keys`), each key once.
   */
  datatype Json =
    | JNull
    | JBool(b: bool)
    | JNumber(n: real)
    | JString(s: string)
    | JArray(items: seq<Json>)
    | JObject(members: seq<(string, Json)>)

  /** `Boolean(j)`: `null`, `false`, `0` and `""` are falsy; arrays and objects never are (JSON has no NaN). */
  predicate Truthy(j: Json) {
    match j
    case JNull => false
    case JBool(b) => b
    case JNumber(n) => n != 0.0
    case JString(s) => s != ""
    case JArray(_) => true
    case JObject(_) => true
  }

  /** Truthiness of a value that may be `undefined` (`None`). */
  predicate TruthyValue(v: Option<Json>) {
    v.Some? && Truthy(v.value)
  }

  /** No key occurs twice, as in every object `JSON.parse` builds. */
  predicate DistinctKeys(members: seq<(string, Json)>) {
    forall i, j :: 0 <= i < j < |members| ==> members[i].0 != members[j].0
  }

  /** The value of the first member named `key`. */
  function Lookup(members: seq<(string, Json)>, key: string): (r: Option<Json>)
    ensures r.Some? <==> exists i :: 0 <= i < |members| && members[i].0 == key
  {
    if members == [] then None
    else if members[0].0 == key then Some(members[0].1)
    else
      var r := Lookup(members[1..], key);
      assert forall i :: 1 <= i < |members| ==> members[i] == members[1..][i - 1];
      r
  }

  /**
   * `j.key` on a non-null value: an object's member, and `undefined` for
   * every key the routes read from a string, number, boolean or array.
   */
  function Get(j: Json, key: string): Option<Json> {
    if j.JObject? then Lookup(j.members, key) else None
  }

  /** The member at index `i` is the one found when no earlier member has its key. */
  lemma {:induction false} LookupAt(members: seq<(string, Json)>, i: nat)
    requires i < |members|
    requires forall j :: 0 <= j < i ==> members[j].0 != members[i].0
    ensures Lookup(members, members[i].0) == Some(members[i].1)
  {
    if i > 0 {
      LookupAt(members[1..], i - 1);
    }
  }

  /** Members added after a key's first occurrence do not change what reading it gives. */
  lemma {:induction false} LookupAppend(members: seq<(string, Json)>, extra: seq<(string, Json)>, key: string)
    requires Lookup(members, key).Some?
    ensures Lookup(members + extra, key) == Lookup(members, key)
  {
    if members[0].0 != key {
      assert (members + extra)[1..] == members[1..] + extra;
      LookupAppend(members[1..], extra, key);
    }
  }

  /** Reading the members of a two-member object literal. */
  lemma {:induction false} LookupPair(k1: string, v1: Json, k2: string, v2: Json)
    ensures Lookup([(k1, v1), (k2, v2)], k1) == Some(v1)
    ensures k1 != k2 ==> Lookup([(k1, v1), (k2, v2)], k2) == Some(v2)
  {
    assert [(k1, v1), (k2, v2)][1..] == [(k2, v2)];
  }

  /** The results of `typeof` a JSON value or `undefined`. */
  datatype JsType = TUndefined | TObject | TBoolean | TNumber | TString

  /** `typeof v`; note that `typeof null` and `typeof []` are both `'object'`. */
  function TypeOf(v: Option<Json>): JsType {
    match v
    case None => TUndefined
    case Some(JNull) => TObject
    case Some(JBool(_)) => TBoolean
    case Some(JNumber(_)) => TNumber
    case Some(JString(_)) => TString
    case Some(JArray(_)) => TObject
    case Some(JObject(_)) => TObject
  }

  /** `Array.isArray(v)`. */
  predicate IsArray(v: Option<Json>) {
    v.Some? && v.value.JArray?
  }

  /** What `JSON.parse` gives: a value, or the message of the `SyntaxError` it throws. */
  datatype ParseResult = Parsed(value: Json) | SyntaxError(message: string)
}
