/**
 * `customFormatErrorFn`, the adapter the GraphQL endpoint applies to every
 * error it reports.
 */
module GraphqlErrors {
  import opened Js

  /** The domain error a resolver threw: its `code` and its `data` payload. */
  datatype Cause = Cause(code: Value, data: Value)

  /** A GraphQL error: its message and, when a resolver threw, the original error. */
  datatype GraphQLError = GraphQLError(message: string, originalError: Option<Cause>)

  /** What the adapter returns: the error itself, or the `{message, status, data}` object. */
  datatype FormattedError =
    | PassThrough(error: GraphQLError)
    | Normalized(message: string, status: Value, data: Value)

  const DefaultMessage: string := "An error occurred."
  const DefaultStatus: Value := Num(500)

  /**
   * Errors without an original cause (syntax and validation errors) go out
   * unchanged; a resolver's error becomes `{message, status, data}` with a
   * generic message for an empty one and 500 for a falsy code.
   */
  function FormatError(err: GraphQLError): (r: FormattedError)
    ensures r.PassThrough? <==> err.originalError.None?
    ensures r.PassThrough? ==> r.error == err
    ensures r.Normalized? ==>
      r.message != "" && Truthy(r.status) && r.data == err.originalError.value.data
    ensures r.Normalized? && err.message != "" ==> r.message == err.message
    ensures r.Normalized? && err.message == "" ==> r.message == DefaultMessage
    ensures r.Normalized? && Truthy(err.originalError.value.code) ==> r.status == err.originalError.value.code
    ensures r.Normalized? && !Truthy(err.originalError.value.code) ==> r.status == DefaultStatus
  {
    match err.originalError
    case None => PassThrough(err)
    case Some(cause) =>
      var message := if err.message != "" then err.message else DefaultMessage;
      var code := Or(cause.code, DefaultStatus);
      Normalized(message, code, cause.data)
  }

  /** The endpoint reports its errors in order, each one through the adapter. */
  function FormatErrors(errs: seq<GraphQLError>): seq<FormattedError> {
    seq(|errs|, i requires 0 <= i < |errs| => FormatError(errs[i]))
  }
}
