/** The exceptions the probe can raise, as values. */
module Outcome {
  import opened Json

  /** Why an exception outside the probe's own taxonomy was raised. */
  datatype Fault =
    | MissingKey(key: string)   // KeyError on a dict lookup
    | NotSubscriptable          // TypeError: indexing something that is not a dict
    | NotJson                   // res.json() could not decode the body
    | NotComparable             // TypeError: `total_pages > 1` on a non-number
    | NotAString                // TypeError: re.search on a hostname that is not a str
    | NotAList                  // a page whose `data` is not a JSON array
    | NotCallable               // TypeError: calling the str that shadows `token`
    | RequestFailed             // any requests exception other than ConnectTimeout

  datatype Error =
    | TokenExpired(message: string)                                    // TokenExpiredError
    | ApiConnectionError(status: int, errorCode: Value, errorMessage: Value) // builtin ConnectionError
    | ConnectTimeout                                                   // requests.exceptions.ConnectTimeout
    | Unexpected(fault: Fault)                                         // any other Exception

  datatype Result<+T> = Ok(value: T) | Err(error: Error) {
    predicate IsFailure() {
      Err?
    }

    function PropagateFailure<U>(): Result<U>
      requires Err?
    {
      Err(error)
    }

    function Extract(): T
      requires Ok?
    {
      value
    }
  }

  /** Python's `v[key]` with a string key. */
  function Lookup(v: Value, key: string): (r: Result<Value>)
    ensures r.Ok? <==> v.Object? && key in v.fields
    ensures r.Ok? ==> r.value == v.fields[key]
    ensures r.Err? ==> r.error == Unexpected(if v.Object? then MissingKey(key) else NotSubscriptable)
  {
    match v
    case Object(fields) =>
      if key in fields then Ok(fields[key]) else Err(Unexpected(MissingKey(key)))
    case _ => Err(Unexpected(NotSubscriptable))
  }
}
