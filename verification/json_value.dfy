/**
  The JSON-like values that the inventory generator builds before handing them to
  the serialiser: strings, integers and objects. An object keeps its members in
  insertion order, as a Python dict does, so the order in which the generator
  writes keys is part of the model.
 */
module JsonValue {
  import opened Wrappers

  datatype Json =
    | JString(str: string)
    | JNumber(num: int)
    | JObject(members: seq<(string, Json)>)

  /** The keys of an object, in insertion order; a string or a number has none. */
  function Keys(j: Json): seq<string>
  {
    match j
    case JObject(ms) => seq(|ms|, i requires 0 <= i < |ms| => ms[i].0)
    case _ => []
  }

  /** An object has one key per member, each the name of that member, in order. */
  lemma KeysOfObject(j: Json)
    ensures j.JObject? ==> |Keys(j)| == |j.members|
    ensures j.JObject? ==> forall i | 0 <= i < |j.members| :: Keys(j)[i] == j.members[i].0
    ensures !j.JObject? ==> Keys(j) == []
  {
  }

  /** No key occurs twice, as in every Python dict. */
  predicate DistinctKeys(j: Json)
  {
    var ks := Keys(j);
    forall i, k | 0 <= i < k < |ks| :: ks[i] != ks[k]
  }

  /** The value stored under `key` in a list of members: the first member with that key. */
  function Get(members: seq<(string, Json)>, key: string): Option<Json>
  {
    if members == [] then None
    else if members[0].0 == key then Some(members[0].1)
    else Get(members[1..], key)
  }

  /** Follows `path` through nested objects, as `j[p0][p1]...` does in Python. */
  function Lookup(j: Json, path: seq<string>): Option<Json>
    decreases |path|
  {
    if path == [] then Some(j)
    else if !j.JObject? then None
    else match Get(j.members, path[0])
      case None => None
      case Some(child) => Lookup(child, path[1..])
  }
}
