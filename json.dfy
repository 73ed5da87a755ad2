/**
 A small JSON value type: the request bodies the webhook client hands to its
 HTTP library are Python dict and list literals, serialised as JSON objects
 (members in insertion order) and arrays.
 */
module Json {
  import opened Wrappers

  datatype Json =
    | JNull
    | JBool(b: bool)
    | JInt(n: int)
    | JString(s: string)
    | JArray(items: seq<Json>)
    | JObject(members: seq<(string, Json)>)

  /** The value of the first member named `key`, as a dict lookup reads it. */
  function Lookup(members: seq<(string, Json)>, key: string): (r: Option<Json>)
    ensures r.None? <==> forall i :: 0 <= i < |members| ==> members[i].0 != key
    ensures r.Some? ==> exists i :: 0 <= i < |members| && members[i] == (key, r.value)
  {
    if members == [] then None
    else if members[0].0 == key then Some(members[0].1)
    else
      var r := Lookup(members[1..], key);
      assert forall i :: 1 <= i < |members| ==> members[i] == members[1..][i - 1];
      r
  }

  /** `j[key]` for an object `j`; nothing for any other value or a missing key. */
  function Field(j: Json, key: string): Option<Json>
  {
    match j
    case JObject(ms) => Lookup(ms, key)
    case _ => None
  }

  /** The member names of an object, in order; none for any other value. */
  function Keys(j: Json): (ks: seq<string>)
    ensures j.JObject? ==> |ks| == |j.members|
    ensures j.JObject? ==> forall i :: 0 <= i < |ks| ==> ks[i] == j.members[i].0
    ensures !j.JObject? ==> ks == []
  {
    match j
    case JObject(ms) => seq(|ms|, i requires 0 <= i < |ms| => ms[i].0)
    case _ => []
  }

  /** Pairwise distinct member names, as in a dict literal. */
  predicate Distinct(keys: seq<string>)
  {
    forall i, j :: 0 <= i < j < |keys| ==> keys[i] != keys[j]
  }

  /** The object literal whose member names are `keys` and whose values are `values`, in order. */
  function Object(keys: seq<string>, values: seq<Json>): (j: Json)
    requires |keys| == |values|
    ensures j.JObject? && Keys(j) == keys
    ensures forall i :: 0 <= i < |keys| ==> j.members[i] == (keys[i], values[i])
  {
    JObject(seq(|keys|, i requires 0 <= i < |keys| => (keys[i], values[i])))
  }

  /** In an object literal with distinct member names, looking up a name finds its value. */
  lemma {:induction false} LookupMember(members: seq<(string, Json)>, i: nat)
    requires i < |members|
    requires forall a, b :: 0 <= a < b < |members| ==> members[a].0 != members[b].0
    ensures Lookup(members, members[i].0) == Some(members[i].1)
  {
    if i > 0 {
      assert members[0].0 != members[i].0;
      assert members[1..][i - 1] == members[i];
      LookupMember(members[1..], i - 1);
    }
  }

  /** Every member of an object literal with distinct names is found under its name. */
  lemma ObjectField(keys: seq<string>, values: seq<Json>, i: nat)
    requires |keys| == |values| && Distinct(keys) && i < |keys|
    ensures Field(Object(keys, values), keys[i]) == Some(values[i])
  {
    var ms := Object(keys, values).members;
    LookupMember(ms, i);
  }
}
