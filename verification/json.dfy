/** JSON values as the Python `json` module hands them to the generated model
    classes: a dictionary is a `map`, a list is a `seq`, `None` is `Null`.
    Numbers are kept as their opaque literal text, since no arithmetic is done
    on them anywhere in the client. */
module Json {
  import opened Results

  datatype Json =
    | Null
    | Bool(b: bool)
    | Number(literal: string)
    | Str(s: string)
    | Array(items: seq<Json>)
    | Object(members: Dict)

  /** A Python `dict` decoded from a JSON object. */
  type Dict = map<string, Json>

  /** Any value except `None`: what a set attribute holds. */
  type Present = j: Json | !j.Null? witness Bool(false)

  /** A Python attribute value read from JSON: `null` becomes `None`. */
  function Attribute(j: Json): Option<Present> {
    if j.Null? then None else Some(j)
  }

  /** `if value is not None: d[key] = value`. */
  function Assign(d: Dict, key: string, o: Option<Json>): Dict {
    match o
    case None => d
    case Some(v) => d[key := v]
  }

  /** No key of `d` maps to `null`. */
  ghost predicate NullFree(d: Dict) {
    forall k :: k in d ==> !d[k].Null?
  }
}
