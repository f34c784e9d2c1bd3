/** Option and Result values, and the errors the services reject with.

    The backend signals failures by throwing a `ResponseError(status, message)`,
    which its error middleware turns into an HTTP response. Any other thrown
    value (a Firestore failure, a TypeError) reaches the same middleware
    without a status of its own; the model keeps those apart as `Unexpected`. */
module Wrappers {

  datatype Option<+T> = None | Some(value: T) {
    function GetOr(default: T): T {
      match this
      case Some(v) => v
      case None => default
    }
  }

  datatype Error =
    | ResponseError(status: nat, message: string)
    | Unexpected(reason: string)

  datatype Result<+T> = Ok(value: T) | Err(error: Error)

  /** What a call into a service outside the model (the text model, Firebase
      Auth, the token signer, the mailer) does: return a value or throw. */
  datatype Outcome<+T> = Returns(value: T) | Throws(reason: string)

  /** The `message` property of a thrown error. */
  function Message(e: Error): string {
    match e
    case ResponseError(_, m) => m
    case Unexpected(m) => m
  }

  /** A JavaScript string value is truthy when it is present and not empty. */
  predicate Truthy(s: Option<string>) {
    s.Some? && s.value != ""
  }
}
