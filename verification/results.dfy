/** `LogSnag::Result`: what every request method returns. */
module Results {
  import opened Values

  /** A keyword Struct; a field the client leaves out is nil. */
  datatype Result = Result(success: Value, data: Value, errorMessage: Value, statusCode: Value) {
    /** `success?`: the `success` field as stored, not coerced to a boolean; it is truthy
        exactly when `error?` is false. */
    function IsSuccess(): (v: Value)
      ensures v == success
      ensures Truthy(v) <==> !IsError()
    {
      success
    }

    /** `error?`: `!success`, so only a nil or false `success` reads as an error. */
    predicate IsError(): (e: bool)
      ensures e <==> success.Nil? || success == Bool(false)
    {
      !Truthy(success)
    }
  }

  /** The two shapes the client builds: a success carries a status code and no error
      message; a failure carries no data and a truthy error message. */
  predicate WellFormed(r: Result) {
    && r.success.Bool?
    && (r.success.b ==> r.errorMessage == Nil && r.statusCode.Num?)
    && (!r.success.b ==> r.data == Nil && Truthy(r.errorMessage))
  }

  /** For a boolean `success`, exactly one of `success?` and `error?` holds. */
  lemma OneOutcome(r: Result)
    requires r.success.Bool?
    ensures r.IsError() <==> r.IsSuccess() == Bool(false)
    ensures !r.IsError() <==> r.IsSuccess() == Bool(true)
  {
  }

  /** On a result the client built, `error?` holds exactly when an error message is
      present and no data is. */
  lemma ErrorCarriesMessage(r: Result)
    requires WellFormed(r)
    ensures r.IsError() <==> r.errorMessage != Nil
    ensures r.IsError() ==> r.data == Nil
  {
  }
}
