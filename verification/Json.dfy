/** JSON trees, the `jsonb` containment operator, and the shared Option type. */
module Json {

  datatype Option<+T> = None | Some(value: T)

  /** A decoded JSON document. Numbers are exact reals: the columns are `jsonb`. */
  datatype Json =
    | JNull
    | JBool(b: bool)
    | JNum(n: real)
    | JStr(s: string)
    | JArr(items: seq<Json>)
    | JObj(fields: map<string, Json>)
  {
    predicate Scalar() {
      !JArr? && !JObj?
    }
  }

  /** Containment below the top level: objects and arrays structurally, scalars by equality. */
  predicate Within(t: Json, v: Json)
    decreases t, 0
  {
    match t
    case JObj(tf) => v.JObj? && forall k | k in tf :: k in v.fields && Within(tf[k], v.fields[k])
    case JArr(ts) =>
      && v.JArr?
      && forall i | 0 <= i < |ts| :: WithinSome(ts[i], v.items)
    case _ => t == v
  }

  /** Some element contains `t`. */
  predicate WithinSome(t: Json, items: seq<Json>)
    decreases t, 1
  {
    exists j | 0 <= j < |items| :: Within(t, items[j])
  }

  /** The operator `v @> t`: containment, where a top-level array also contains its scalar elements. */
  predicate Contains(v: Json, t: Json) {
    Within(t, v) || (t.Scalar() && v.JArr? && t in v.items)
  }
}
