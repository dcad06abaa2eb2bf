/** The exceptions the client raises, as values. */
module Errors {
  import opened Values

  /** Each raise site of the client. Messages are kept as the data they interpolate. */
  datatype Error =
      /** "Missing required keys: [...]" */
    | MissingKeys(keys: seq<string>)
      /** "Found invalid keys: [...]" */
    | InvalidKeys(keys: seq<string>)
      /** "Invalid key: '...'. Keys must be lowercase and may include dashes." */
    | InvalidKey(key: Value)
      /** "Invalid value for '...': '...'. Values must be a string, boolean, or number." */
    | InvalidValue(key: Value, value: Value)
      /** "Invalid value for Insight: '...'. Values must be a string or number." */
    | InvalidInsightValue(value: Value)
      /** "Invalid value for Insight mutation: '...'. Value must be a number." */
    | InvalidMutationValue(value: Value)
      /** Ruby's NoMethodError: the receiver has no method of that name. */
    | NoMethod(name: string, receiver: Value)
      /** Ruby's TypeError "no implicit conversion of String into Integer": an Array or
          an Integer indexed by a string. */
    | NoImplicitConversion(receiver: Value)
      /** An exception from the HTTP layer that is not an `HTTParty::Error` (a refused
          connection, a socket error, a read timeout), named by its class. */
    | Uncaught(name: string)
      /** "`data` must be a Hash" */
    | DataNotHash
      /** "LogSnag::Configuration not found. Did you call LogSnag.configure?" */
    | ConfigurationNotFound
      /** "API token cannot be nil" */
    | ApiTokenNil
      /** "Project cannot be nil" */
    | ProjectNil

  /** A check that returns normally or raises. */
  datatype Check = Pass | Fail(error: Error) {
    /** Run `next` only when this check passed: the first raise wins. */
    function Then(next: Check): (c: Check)
      ensures c.Pass? <==> Pass? && next.Pass?
      ensures Fail? ==> c == this
    {
      if Fail? then this else next
    }
  }

  /** A computation that returns a value or raises. */
  datatype Attempt<+T> = Ok(value: T) | Raised(error: Error)
}
