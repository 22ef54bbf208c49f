/**
 * The error-handling middleware registered last in server/app.js: the one
 * place where failures become responses.
 */
module Errors {
  import opened Js

  /** An error as it reaches the middleware: message, optional numeric `statusCode`, `data`. */
  datatype ErrorObj = ErrorObj(message: Value, statusCode: Option<int>, data: Value)

  /** What `throw new Error('Not authenticated!')` hands to the middleware. */
  const NotAuthenticated: ErrorObj := ErrorObj(Str("Not authenticated!"), None, Undefined)

  /** `error.statusCode || 500`. */
  function ErrorStatus(e: ErrorObj): (status: int)
    ensures status != 0
    ensures Truthy(OfNumber(e.statusCode)) ==> Some(status) == e.statusCode
    ensures !Truthy(OfNumber(e.statusCode)) ==> status == 500
  {
    match Or(OfNumber(e.statusCode), Num(500))
    case Num(n) => n
    case _ => assert false; 500
  }

  /** The object the middleware passes to `res.json`: exactly `message` and `data`. */
  function ErrorBody(e: ErrorObj): map<string, Value> {
    map["message" := e.message, "data" := e.data]
  }
}
