/**
 * The dictionaries and lists the program builds and loads (YAML prompt
 * configurations, batch request records) as a JSON-like value. An object
 * is a map from keys to values; the order of its keys is not kept.
 */
module Json {
  import opened Wrappers

  datatype Json =
    | JNull
    | JBool(b: bool)
    | JInt(i: int)
    | JString(s: string)
    | JArray(elems: seq<Json>)
    | JObject(fields: map<string, Json>)

  /** `obj[key]`: the value bound to `key` in an object, if any. */
  function Get(j: Json, key: string): Option<Json>
  {
    if j.JObject? && key in j.fields then Some(j.fields[key]) else None
  }

  /** Follows a path of keys through nested objects: `j[p0][p1]...`. */
  function At(j: Json, path: seq<string>): Option<Json>
  {
    if path == [] then Some(j)
    else match Get(j, path[0])
      case None => None
      case Some(v) => At(v, path[1..])
  }

  /** Following a path is looking up its first key, then following the rest. */
  lemma AtStep(j: Json, key: string, rest: seq<string>)
    ensures At(j, [key] + rest) == if Get(j, key).Some? then At(Get(j, key).value, rest) else None
  {
    assert ([key] + rest)[0] == key && ([key] + rest)[1..] == rest;
  }

  /** Following a path in two pieces is following it whole. */
  lemma {:induction false} AtAppend(j: Json, p: seq<string>, q: seq<string>)
    ensures At(j, p + q) == if At(j, p).Some? then At(At(j, p).value, q) else None
    decreases |p|
  {
    if p == [] {
      assert p + q == q;
    } else {
      assert (p + q)[0] == p[0] && (p + q)[1..] == p[1..] + q;
      match Get(j, p[0])
      case None =>
      case Some(v) => AtAppend(v, p[1..], q);
    }
  }

  /** A list of strings as a JSON array. */
  function Strings(xs: seq<string>): (r: Json)
    ensures r.JArray? && |r.elems| == |xs|
    ensures forall i :: 0 <= i < |xs| ==> r.elems[i] == JString(xs[i])
  {
    JArray(seq(|xs|, i requires 0 <= i < |xs| => JString(xs[i])))
  }
}
