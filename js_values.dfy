/**
 * JavaScript values as the proxy's handlers see them once a JSON request
 * body has been parsed, together with the few pieces of JavaScript
 * semantics the handlers rely on: truthiness, reading a named property,
 * object destructuring and strict equality against a number literal.
 */
module JsValues {

  datatype Option<+T> = None | Some(value: T)

  /**
   * A JavaScript number. JSON text yields finite numbers, or an infinity
   * for a literal beyond double range such as 1e400; NaN only arises from
   * computation. The sign of zero is not kept: -0 and 0 are both Finite(0.0),
   * and JavaScript treats them alike in every test made here.
   */
  datatype Number = Finite(value: real) | Infinity(negative: bool) | NaN

  /**
   * A JavaScript value built from JSON. An object is the sequence of its
   * own members in insertion order.
   */
  datatype Json =
    | JNull
    | JBool(b: bool)
    | JNumber(n: Number)
    | JString(s: string)
    | JArray(items: seq<Json>)
    | JObject(members: seq<(string, Json)>)

  /**
   * A property read yields a value or `undefined`; None stands for
   * `undefined` throughout.
   */
  type Value = Option<Json>

  /**
   * JavaScript truthiness: `undefined`, `null`, `false`, the numbers 0 and
   * NaN, and the empty string are falsy; every other value, including an
   * empty array or an empty object, is truthy.
   */
  predicate Truthy(v: Value) {
    match v
    case None => false
    case Some(JNull) => false
    case Some(JBool(b)) => b
    case Some(JNumber(n)) => n != Finite(0.0) && n != NaN
    case Some(JString(s)) => s != ""
    case Some(JArray(_)) => true
    case Some(JObject(_)) => true
  }

  /** The falsy values are exactly these six; `{}` and `[]` are truthy. */
  lemma FalsyValues(v: Value)
    ensures !Truthy(v) <==> v in {None, Some(JNull), Some(JBool(false)),
      Some(JNumber(Finite(0.0))), Some(JNumber(NaN)), Some(JString(""))}
    ensures Truthy(Some(JObject([]))) && Truthy(Some(JArray([])))
  {
  }

  /**
   * The value of the last member named `key`, or `undefined` when there is
   * none. JSON.parse keeps the last of several members with the same name,
   * so the last one is the one a property read sees.
   */
  function Lookup(members: seq<(string, Json)>, key: string): (r: Value)
    ensures r.None? <==> forall i :: 0 <= i < |members| ==> members[i].0 != key
    decreases |members|
  {
    if members == [] then None
    else if members[|members| - 1].0 == key then Some(members[|members| - 1].1)
    else Lookup(members[..|members| - 1], key)
  }

  /** A lookup that finds a value finds the last member with that name. */
  lemma {:induction false} LookupFindsLast(members: seq<(string, Json)>, key: string)
    requires Lookup(members, key).Some?
    ensures exists i ::
      0 <= i < |members| && members[i] == (key, Lookup(members, key).value) &&
      forall j :: i < j < |members| ==> members[j].0 != key
    decreases |members|
  {
    var n := |members|;
    if members[n - 1].0 != key {
      var prefix := members[..n - 1];
      LookupFindsLast(prefix, key);
      var i :| 0 <= i < n - 1 && prefix[i] == (key, Lookup(prefix, key).value) &&
        forall j :: i < j < n - 1 ==> prefix[j].0 != key;
      assert Lookup(members, key) == Lookup(prefix, key);
      assert members[i] == prefix[i];
      assert forall j :: i < j < n ==> members[j].0 != key by {
        forall j | i < j < n ensures members[j].0 != key {
          if j < n - 1 { assert members[j] == prefix[j]; }
        }
      }
    }
  }

  /** When exactly one member is named `key`, a lookup finds its value. */
  lemma LookupUniqueKey(members: seq<(string, Json)>, i: nat, key: string)
    requires i < |members| && members[i].0 == key
    requires forall j :: 0 <= j < |members| && j != i ==> members[j].0 != key
    ensures Lookup(members, key) == Some(members[i].1)
  {
  }

  /** A lookup in a concatenation finds the key in the later part if it is there, and in the earlier part otherwise. */
  lemma {:induction false} LookupConcat(front: seq<(string, Json)>, back: seq<(string, Json)>, key: string)
    ensures Lookup(front + back, key) ==
      if Lookup(back, key).Some? then Lookup(back, key) else Lookup(front, key)
    decreases |back|
  {
    var all := front + back;
    if back == [] {
      assert all == front;
    } else if back[|back| - 1].0 != key {
      assert all[..|all| - 1] == front + back[..|back| - 1];
      LookupConcat(front, back[..|back| - 1], key);
    }
  }

  /**
   * Reading the property `key` of a value. Only objects have own
   * properties with the names this model reads; arrays, strings, numbers
   * and booleans yield `undefined` for them (none of the names read is an
   * array index, `length`, or a member of Object.prototype).
   */
  function Get(v: Json, key: string): (r: Value)
    ensures r.Some? ==> v.JObject?
    ensures v.JObject? ==> (r.None? <==> forall i :: 0 <= i < |v.members| ==> v.members[i].0 != key)
  {
    match v
    case JObject(members) => Lookup(members, key)
    case _ => None
  }

  /**
   * Object destructuring `const { ... } = v` throws a TypeError exactly
   * when `v` is `undefined` or `null`; on any other value it reads each
   * named property.
   */
  predicate Destructurable(v: Value) {
    v.Some? && v.value != JNull
  }

  /** `v === n` for a number literal `n`: only a number equal to `n` passes. */
  predicate StrictEqualsNumber(v: Value, n: int) {
    v == Some(JNumber(Finite(n as real)))
  }

  /** The object `{ error: message }`. */
  function ErrorEnvelope(message: string): (j: Json)
    ensures Get(j, "error") == Some(JString(message))
    ensures forall key :: key != "error" ==> Get(j, key) == None
  {
    JObject([("error", JString(message))])
  }
}
