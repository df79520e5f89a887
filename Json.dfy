/** The JSON values `serde_json::json!` builds; objects are key-to-value maps
    (key order and pretty printing are not modelled). */
module Json {
  import opened Wrappers

  datatype Json =
    | Null
    | Bool(b: bool)
    | Number(n: int)
    | Str(s: string)
    | Array(items: seq<Json>)
    | Object(fields: map<string, Json>)

  /** The value under `key` when `j` is an object that has it. */
  function Field(j: Json, key: string): Option<Json> {
    if j.Object? && key in j.fields then Some(j.fields[key]) else None
  }

  /** Follows a path of object keys from `j`. */
  function At(j: Json, path: seq<string>): (r: Option<Json>)
    ensures path == [] ==> r == Some(j)
    decreases |path|
  {
    if path == [] then Some(j)
    else match Field(j, path[0])
      case None => None
      case Some(child) => At(child, path[1..])
  }

  /** Looking up a path in two steps is looking it up in one. */
  lemma {:induction false} AtConcat(j: Json, p: seq<string>, q: seq<string>)
    ensures At(j, p + q) == (match At(j, p) case None => None case Some(c) => At(c, q))
    decreases |p|
  {
    if p == [] {
      assert p + q == q;
    } else {
      assert (p + q)[0] == p[0];
      assert (p + q)[1..] == p[1..] + q;
      match Field(j, p[0])
      case None =>
        assert At(j, p + q) == None;
      case Some(child) =>
        AtConcat(child, p[1..], q);
        assert At(j, p + q) == At(child, p[1..] + q);
    }
  }
}
