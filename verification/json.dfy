/**
 * Parsed JSON values as the Python code sees them after `json.load` or
 * `request.json`. An object is a Python dict: its members are kept in
 * insertion order (which `dict.keys()` reports) and its keys are distinct.
 */
module Json {
  import opened Wrappers

  datatype Json =
    | JNull
    | JBool(b: bool)
    | JInt(i: int)
    | JFloat(r: real)
    | JStr(s: string)
    | JArray(items: seq<Json>)
    | JObject(members: seq<(string, Json)>)

  /**
   * The members of a dict have distinct keys. A JSON text that repeats a key
   * is outside the model: Python keeps only the last of the repeated values.
   */
  predicate DistinctKeys(members: seq<(string, Json)>) {
    forall i, j :: 0 <= i < j < |members| ==> members[i].0 != members[j].0
  }

  /** `d.get(key)`: the value stored under `key`, or None when the key is absent. */
  function Lookup(members: seq<(string, Json)>, key: string): (r: Option<Json>)
    ensures r.Some? <==> exists i :: 0 <= i < |members| && members[i].0 == key
    ensures r.Some? ==> exists i :: 0 <= i < |members| && members[i] == (key, r.value)
    ensures DistinctKeys(members) ==> forall i :: 0 <= i < |members| && members[i].0 == key ==> r == Some(members[i].1)
  {
    if members == [] then None
    else if members[0].0 == key then Some(members[0].1)
    else
      var r := Lookup(members[1..], key);
      assert forall i :: 1 <= i < |members| ==> members[i] == members[1..][i - 1];
      r
  }

  /** `d.keys()`, in insertion order. */
  function Keys(members: seq<(string, Json)>): (ks: seq<string>)
    ensures |ks| == |members|
    ensures forall i :: 0 <= i < |members| ==> ks[i] == members[i].0
  {
    if members == [] then [] else [members[0].0] + Keys(members[1..])
  }

  /** Python truthiness of a JSON value: None, False, 0, 0.0, "", [] and {} are false. */
  predicate Truthy(j: Json) {
    match j
    case JNull => false
    case JBool(b) => b
    case JInt(i) => i != 0
    case JFloat(r) => r != 0.0
    case JStr(s) => s != []
    case JArray(items) => items != []
    case JObject(members) => members != []
  }
}
