/** Values of parsed JSON documents and of Firestore fields, as far as the
    services look at them: JavaScript truthiness and the `||` default. */
module JsonValues {

  /** A value of a parsed JSON document, as far as `||` can tell them apart. */
  datatype JsonValue = Undefined | Null | Bool(b: bool) | Number(x: real) | Str(s: string) | Composite

  predicate JsTruthy(v: JsonValue) {
    match v
    case Undefined => false
    case Null => false
    case Bool(b) => b
    case Number(x) => x != 0.0
    case Str(s) => s != ""
    case Composite => true
  }

  /** `v || fallback`. */
  function Or(v: JsonValue, fallback: JsonValue): JsonValue
  {
    if JsTruthy(v) then v else fallback
  }
}
