/** Places inside a JSON value. */
module JsonPaths {
  import opened JsText
  import opened JsonTree

  /** The values directly inside a value. */
  function Children(v: Json): (cs: seq<Json>)
    ensures forall i :: 0 <= i < |cs| ==> cs[i] < v
  {
    match v
    case Array(items) => items
    case Object(fields) => seq(|fields|, i requires 0 <= i < |fields| => fields[i].value)
    case _ => []
  }

  /** The value at the end of a path of child positions. */
  function At(v: Json, path: seq<nat>): Option<Json> {
    if |path| == 0 then Some(v)
    else if path[0] < |Children(v)| then At(Children(v)[path[0]], path[1..])
    else None
  }

  lemma AtChild(v: Json, i: nat, rest: seq<nat>)
    requires i < |Children(v)|
    ensures At(v, [i] + rest) == At(Children(v)[i], rest)
  {
    assert ([i] + rest)[1..] == rest;
  }
}
