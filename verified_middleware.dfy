/** The verified-address gate of backend/src/middlewares/verified-middleware.js,
    run after the authentication middleware has decoded the caller's token. */
module VerifiedMiddleware {
  import opened Wrappers
  import opened JsonValues

  /** The decoded token the authentication middleware leaves in `req.user`;
      `email_verified` is its claim of that name, whatever JSON value it holds. */
  datatype AuthUser = AuthUser(uid: string, email_verified: JsonValue)

  /** The single call the middleware makes to `next`: with no argument, or with an error. */
  datatype Next = Proceed | Fail(error: Error)

  const Unauthorized := ResponseError(401, "Unauthorized")
  const NotVerified := ResponseError(403, "Email Anda belum diverifikasi. Silakan cek inbox email Anda.")

  /** `verifiedMiddleware(req, res, next)`. */
  function VerifiedGate(user: Option<AuthUser>): (n: Next)
    ensures user.None? ==> n == Fail(Unauthorized)
    ensures n == Proceed <==> user.Some? && JsTruthy(user.value.email_verified)
    ensures user.Some? && !JsTruthy(user.value.email_verified) ==> n == Fail(NotVerified)
  {
    match user
    case None => Fail(Unauthorized)
    case Some(u) => if JsTruthy(u.email_verified) then Proceed else Fail(NotVerified)
  }

  /** A caller the authentication step did not identify is never told that the
      address is unverified, and a refusal is always 401 or 403. */
  lemma GateStatuses(user: Option<AuthUser>)
    ensures VerifiedGate(user).Fail? ==>
              (VerifiedGate(user).error.ResponseError? && VerifiedGate(user).error.status in {401, 403})
    ensures VerifiedGate(user).Fail? && VerifiedGate(user).error.status == 403 ==> user.Some?
  {
  }
}
