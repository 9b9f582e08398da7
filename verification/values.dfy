/** Plain values shared by the whole model: an optional value standing for a
    JavaScript property that may be `undefined`, an opaque JSON value, and the
    JavaScript notion of truthiness that the agent's guards rely on. */
module Values {

  /** A value that may be absent (`undefined` or `null` on the JavaScript side). */
  datatype Option<+T> = None | Some(value: T) {

    /** The `??` operator: the value if present, the default otherwise. */
    function GetOr(default: T): T {
      match this
      case Some(v) => v
      case None => default
    }
  }

  /** A JSON document. Tool parameter schemas, parsed call arguments and tool
      results are carried around as such values and never inspected, except
      for truthiness. Numbers are integers only. */
  datatype Json =
    | JNull
    | JBool(b: bool)
    | JNumber(n: int)
    | JString(s: string)
    | JArray(items: seq<Json>)
    | JObject(fields: seq<(string, Json)>)

  /** JavaScript truthiness of a JSON value: `null`, `false`, `0` and `""` are
      falsy; every array and object, even an empty one, is truthy. */
  predicate Truthy(j: Json) {
    match j
    case JNull => false
    case JBool(b) => b
    case JNumber(n) => n != 0
    case JString(s) => s != ""
    case JArray(_) => true
    case JObject(_) => true
  }

  /** Truthiness of a property that may be missing: a missing property reads as
      `undefined`, which is falsy. */
  predicate TruthyField(f: Option<Json>) {
    f.Some? && Truthy(f.value)
  }

  /** Truthiness of a string-valued property that may be missing: falsy when
      missing or empty. */
  predicate TruthyString(f: Option<string>) {
    f.Some? && f.value != ""
  }
}
