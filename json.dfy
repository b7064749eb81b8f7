/** JSON values as the probe receives them from the REST API, and the
    Python equalities the evaluators rely on. Floating-point numbers are
    not modelled. */
module Json {

  datatype Option<+T> = None | Some(value: T)

  datatype Value =
    | Null
    | Bool(b: bool)
    | Int(i: int)
    | Str(s: string)
    | List(items: seq<Value>)
    | Object(fields: map<string, Value>)

  /** Python's `v == True`: `True` and the integer 1 compare equal to it. */
  predicate EqualsTrue(v: Value) {
    v == Bool(true) || v == Int(1)
  }

  /** Python's `v == s` for a string literal `s`: only a string is equal to it. */
  predicate EqualsString(v: Value, s: string) {
    v == Str(s)
  }
}
