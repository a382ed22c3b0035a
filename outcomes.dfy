/** Closed result types that replace the source's thrown `{name, message}` error objects. */
module Outcomes {

  datatype Option<+T> = None | Some(value: T)

  /** Why a request is refused. `Internal` is a JavaScript TypeError (reading a field of `null`);
      no handler for it is part of this model. */
  datatype Failure = NotFound | PaymentRequired | BadRequest | Internal

  /** Either a value (the code returned normally, or called `next()`) or the error it threw. */
  datatype Outcome<+T> = Ok(value: T) | Fail(reason: Failure)

  /** The HTTP status a failure is answered with: the three named errors as the commented-out
      mapping in the hotel middleware answers them, `BadRequest` as the controller sends it, and
      500 for the TypeError, which is an assumption. */
  function HttpStatus(f: Failure): (code: nat)
    ensures code == 404 <==> f == NotFound
    ensures code == 402 <==> f == PaymentRequired
    ensures code == 400 <==> f == BadRequest
    ensures code == 500 <==> f == Internal
  {
    match f
    case NotFound => 404
    case PaymentRequired => 402
    case BadRequest => 400
    case Internal => 500
  }
}
