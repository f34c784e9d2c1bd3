/** The account lifecycle of backend/src/services/auth-service.js:
    registration, login, the current profile, the e-mail verification link
    (with its 60-second resend throttle) and the password reset through a
    single-use token stored per e-mail address.

    Each request reads the clock once (`now`, in milliseconds). Firebase Auth,
    the Identity Toolkit sign-in, the mailer and `jwt.sign` are oracles: their
    answers are parameters. `jwt.verify` is a function from a token to the
    claims it carries, or `None` when the signature or expiry check fails. */
module AuthService {
  import opened Wrappers
  import opened DocumentStore

  const EmailTaken := ResponseError(400, "Email sudah terdaftar")
  const UserNotFound := ResponseError(404, "User tidak ditemukan")
  const AlreadyVerified := ResponseError(400, "Email sudah terverifikasi sebelumnya.")
  const TooSoon := ResponseError(429, "Terlalu banyak permintaan. Silakan tunggu beberapa saat.")
  const LoginFailed := ResponseError(500, "Layanan login bermasalah")

  /** The least time between two verification e-mails. */
  const ResendInterval: int := 60 * 1000

  /** The claims of a JSON Web Token: the verification link carries a uid and
      an e-mail, the reset link an e-mail only. */
  datatype Claims = Claims(uid: Option<string>, email: Option<string>)

  // ----- Register -----

  datatype RegisterRequest = RegisterRequest(name: string, email: string, password: string)
  datatype Registered = Registered(uid: string, name: string, email: string, created_at: nat, message: string)

  /** The profile document written for a new account. */
  function NewUser(uid: string, request: RegisterRequest, now: nat): User {
    User(uid, request.name, request.email, "encrypted_by_firebase", None, None, None,
         now, None, None, now, now, None, None)
  }

  /** `_processVerificationEmail(uid, email, name)` after the token is signed:
      the mail is sent, then `last_verification_sent_at` is stamped. A mailer
      failure propagates and stamps nothing. */
  method SendVerificationLink(db: Database, uid: string, now: nat, mailError: Option<string>) returns (r: Result<()>)
    modifies db
    ensures mailError.Some? ==> r == Err(Unexpected(mailError.value)) && unchanged(db)
    ensures mailError.None? && uid !in old(db.users) ==> r == Err(Unexpected("NOT_FOUND")) && unchanged(db)
    ensures mailError.None? && uid in old(db.users) ==>
              r == Ok(()) && db.users == old(db.users)[uid := old(db.users)[uid].(last_verification_sent_at := Some(now))]
    ensures db.journals == old(db.journals) && db.notifications == old(db.notifications)
    ensures db.resetTokens == old(db.resetTokens)
  {
    if mailError.Some? {
      return Err(Unexpected(mailError.value));
    }
    if uid !in db.users {
      return Err(Unexpected("NOT_FOUND"));
    }
    db.users := db.users[uid := db.users[uid].(last_verification_sent_at := Some(now))];
    return Ok(());
  }

  /** `register(request)`; `created` is what `createUser` gives: the new
      account's uid, or the message of its failure. */
  method Register(db: Database, request: RegisterRequest, created: Outcome<string>, now: nat, mailError: Option<string>)
    returns (r: Result<Registered>)
    modifies db
    // An address already on file is refused before Firebase Auth is asked.
    ensures UsersWithEmail(old(db.users), request.email) != {} ==> r == Err(EmailTaken) && unchanged(db)
    ensures UsersWithEmail(old(db.users), request.email) == {} && created.Throws? ==>
              r == Err(ResponseError(400, "Gagal mendaftarkan user: " + created.reason)) && unchanged(db)
    ensures UsersWithEmail(old(db.users), request.email) == {} && created.Returns? ==>
              var uid := created.value;
              var u := NewUser(uid, request, now);
              // Unverified, no device, no journal yet; all three timestamps are `now`.
              u.email_verified_at.None? && u.fcm_token.None? && u.last_entry.None? && u.last_reminder_at.None? &&
              u.created_at == now && u.updated_at == now && u.last_entry_at == now &&
              (mailError.Some? ==> r == Err(Unexpected(mailError.value)) && db.users == old(db.users)[uid := u]) &&
              (mailError.None? ==>
                 r == Ok(Registered(uid, request.name, request.email, now,
                                    "Registrasi berhasil. Silakan cek email Anda untuk verifikasi.")) &&
                 db.users == old(db.users)[uid := u.(last_verification_sent_at := Some(now))])
    ensures db.journals == old(db.journals) && db.notifications == old(db.notifications)
    ensures db.resetTokens == old(db.resetTokens)
  {
    if UsersWithEmail(db.users, request.email) != {} {
      return Err(EmailTaken);
    }
    if created.Throws? {
      return Err(ResponseError(400, "Gagal mendaftarkan user: " + created.reason));
    }
    var uid := created.value;
    db.users := db.users[uid := NewUser(uid, request, now)];
    var sent := SendVerificationLink(db, uid, now, mailError);
    if sent.Err? {
      return Err(sent.error);
    }
    return Ok(Registered(uid, request.name, request.email, now,
                         "Registrasi berhasil. Silakan cek email Anda untuk verifikasi."));
  }

  // ----- Login -----

  datatype LoginRequest = LoginRequest(email: string, password: string)

  /** What the Identity Toolkit sign-in gives: the tokens and the account id,
      or a refusal with the error code of its response body (`None` when the
      request failed without a response). */
  datatype SignIn =
    | SignedIn(idToken: string, localId: string, refreshToken: string, expiresIn: string)
    | Refused(code: Option<string>)

  datatype LoginUser = LoginUser(uid: string, name: string, email: string, email_verified_at: Option<nat>)
  datatype LoginResult = LoginResult(token: string, refreshToken: string, expiresIn: string, user: LoginUser)

  /** The sign-in codes that mean the e-mail or the password is wrong. */
  predicate BadCredentials(code: string) {
    code == "EMAIL_NOT_FOUND" || code == "INVALID_PASSWORD" || code == "INVALID_LOGIN_CREDENTIALS"
  }

  /** The error `login` rejects with for a failure with response code `code`. */
  function LoginError(code: Option<string>): (e: Error)
    ensures e.ResponseError?
    ensures e.status == 401 <==> code.Some? && BadCredentials(code.value)
    ensures e.status == 403 <==> code == Some("USER_DISABLED")
    ensures e.status == 429 <==> code == Some("TOO_MANY_ATTEMPTS_TRY_LATER")
    ensures e.status == 500 <==> e == LoginFailed
    ensures e.status == 500 <==>
              code.None? || !(BadCredentials(code.value) || code.value == "USER_DISABLED" ||
                              code.value == "TOO_MANY_ATTEMPTS_TRY_LATER")
  {
    match code
    case None => LoginFailed
    case Some(c) =>
      if BadCredentials(c) then ResponseError(401, "Email atau password salah")
      else if c == "USER_DISABLED" then ResponseError(403, "Akun ini telah dinonaktifkan")
      else if c == "TOO_MANY_ATTEMPTS_TRY_LATER" then
        ResponseError(429, "Terlalu banyak percobaan login gagal. Silakan coba lagi nanti.")
      else LoginFailed
  }

  /** `login(request)`. */
  method Login(db: Database, request: LoginRequest, signIn: SignIn, now: nat) returns (r: Result<LoginResult>)
    modifies db
    ensures signIn.Refused? ==> r == Err(LoginError(signIn.code)) && unchanged(db)
    // The 404 for a missing profile is thrown inside the `try`; having no
    // response, it is turned into the generic 500.
    ensures signIn.SignedIn? && signIn.localId !in old(db.users) ==> r == Err(LoginFailed) && unchanged(db)
    ensures signIn.SignedIn? && signIn.localId in old(db.users) ==>
              var uid := signIn.localId;
              var u := old(db.users)[uid];
              r == Ok(LoginResult(signIn.idToken, signIn.refreshToken, signIn.expiresIn,
                                  LoginUser(uid, u.name, u.email, u.email_verified_at))) &&
              db.users == old(db.users)[uid := u.(last_entry_at := now)]
    ensures db.journals == old(db.journals) && db.notifications == old(db.notifications)
    ensures db.resetTokens == old(db.resetTokens)
  {
    match signIn
    case Refused(code) =>
      return Err(LoginError(code));
    case SignedIn(idToken, uid, refreshToken, expiresIn) =>
      if uid !in db.users {
        return Err(LoginFailed);
      }
      var u := db.users[uid];
      db.users := db.users[uid := u.(last_entry_at := now)];
      return Ok(LoginResult(idToken, refreshToken, expiresIn, LoginUser(uid, u.name, u.email, u.email_verified_at)));
  }

  /** A failed sign-in is reported with one of four statuses. */
  lemma LoginStatuses(code: Option<string>)
    ensures LoginError(code).status in {401, 403, 429, 500}
  {
    var e := LoginError(code);
    if e.status != 401 && e.status != 403 && e.status != 429 {
      assert code.None? || !(BadCredentials(code.value) || code.value == "USER_DISABLED" ||
                             code.value == "TOO_MANY_ATTEMPTS_TRY_LATER");
    }
  }

  // ----- Logout and the current profile -----

  /** `logout(user)`: a failure to revoke the refresh tokens is only logged. */
  function Logout(revokeError: Option<string>): string {
    "Logout berhasil"
  }

  /** Logging out succeeds with the same answer whether or not the tokens were revoked. */
  lemma LogoutIgnoresRevocation(revokeError: Option<string>)
    ensures Logout(revokeError) == Logout(None) == "Logout berhasil"
  {
  }

  datatype Profile = Profile(uid: string, name: string, email: string, createdAt: nat, updatedAt: nat, last_entry_at: nat)

  /** `getMe(user)`. */
  function GetMe(users: map<string, User>, uid: string): (r: Result<Profile>)
    ensures r.Err? <==> uid !in users
    ensures r.Err? ==> r.error == UserNotFound
    ensures r.Ok? ==> r.value.name == users[uid].name && r.value.email == users[uid].email &&
                      r.value.createdAt == users[uid].created_at && r.value.updatedAt == users[uid].updated_at &&
                      r.value.last_entry_at == users[uid].last_entry_at && r.value.uid == users[uid].uid
  {
    if uid !in users then Err(UserNotFound)
    else
      var u := users[uid];
      Ok(Profile(u.uid, u.name, u.email, u.created_at, u.updated_at, u.last_entry_at))
  }

  // ----- Resending the verification link -----

  /** The checks `sendVerificationEmail` makes before sending: the account
      exists, is not verified yet, and was last sent a link at least a minute
      ago (a link sent "in the future" counts as too recent). */
  function ResendCheck(users: map<string, User>, uid: string, now: int): (r: Result<User>)
    ensures uid !in users ==> r == Err(UserNotFound)
    ensures uid in users && users[uid].email_verified_at.Some? ==> r == Err(AlreadyVerified)
    ensures (uid in users && users[uid].email_verified_at.None? && users[uid].last_verification_sent_at.Some? &&
             now - users[uid].last_verification_sent_at.value < ResendInterval) ==> r == Err(TooSoon)
    ensures r.Ok? <==> uid in users && users[uid].email_verified_at.None? &&
                       (users[uid].last_verification_sent_at.None? ||
                        users[uid].last_verification_sent_at.value + ResendInterval <= now)
    ensures r.Ok? ==> r.value == users[uid]
  {
    if uid !in users then Err(UserNotFound)
    else
      var u := users[uid];
      if u.email_verified_at.Some? then Err(AlreadyVerified)
      else if u.last_verification_sent_at.Some? && now - u.last_verification_sent_at.value < ResendInterval then Err(TooSoon)
      else Ok(u)
  }

  datatype Resent = Resent(message: string, status: string)

  /** `sendVerificationEmail(user)`. */
  method SendVerificationEmail(db: Database, uid: string, now: nat, mailError: Option<string>) returns (r: Result<Resent>)
    modifies db
    ensures ResendCheck(old(db.users), uid, now).Err? ==> r == Err(ResendCheck(old(db.users), uid, now).error) && unchanged(db)
    ensures ResendCheck(old(db.users), uid, now).Ok? && mailError.Some? ==> r == Err(Unexpected(mailError.value)) && unchanged(db)
    ensures ResendCheck(old(db.users), uid, now).Ok? && mailError.None? ==>
              r == Ok(Resent("Link verifikasi telah dikirim ulang ke email Anda.", "verification-link-sent")) &&
              db.users == old(db.users)[uid := old(db.users)[uid].(last_verification_sent_at := Some(now))]
    ensures db.journals == old(db.journals) && db.notifications == old(db.notifications)
    ensures db.resetTokens == old(db.resetTokens)
  {
    var check := ResendCheck(db.users, uid, now);
    if check.Err? {
      return Err(check.error);
    }
    var sent := SendVerificationLink(db, uid, now, mailError);
    if sent.Err? {
      return Err(sent.error);
    }
    return Ok(Resent("Link verifikasi telah dikirim ulang ke email Anda.", "verification-link-sent"));
  }

  /** A link sent at `t` blocks every resend for the next minute and no longer:
      a resend at `now` is refused with 429 exactly when `now < t + 60 s`. */
  lemma ResendThrottle(users: map<string, User>, uid: string, t: nat, now: int)
    requires uid in users && users[uid].email_verified_at.None?
    ensures var stamped := users[uid := users[uid].(last_verification_sent_at := Some(t))];
            (ResendCheck(stamped, uid, now) == Err(TooSoon) <==> now < t + ResendInterval) &&
            (ResendCheck(stamped, uid, now).Ok? <==> t + ResendInterval <= now)
  {
  }

  /** Registering sends the first link, so a resend within the first minute is refused. */
  lemma RegisterStartsThrottle(users: map<string, User>, uid: string, request: RegisterRequest, t: nat, now: int)
    requires now < t + ResendInterval
    ensures ResendCheck(users[uid := NewUser(uid, request, t).(last_verification_sent_at := Some(t))], uid, now) == Err(TooSoon)
  {
  }

  // ----- Verifying the address -----

  /** The checks `verifyEmail` makes on the link's token, giving the account
      it verifies. */
  function VerificationCheck(users: map<string, User>, token: Option<string>, verify: string -> Option<Claims>): (r: Result<string>)
    ensures !Truthy(token) ==> r == Err(ResponseError(400, "Token verifikasi wajib ada."))
    ensures Truthy(token) && verify(token.value).None? ==>
              r == Err(ResponseError(403, "Link verifikasi tidak valid atau sudah kadaluarsa."))
    ensures r.Ok? <==> Truthy(token) && verify(token.value).Some? && Truthy(verify(token.value).value.uid) &&
                       verify(token.value).value.uid.value in users &&
                       verify(token.value).value.email == Some(users[verify(token.value).value.uid.value].email)
    ensures r.Ok? ==> r.value == verify(token.value).value.uid.value
    // A token without a uid (a password-reset token, say) names no document.
    ensures Truthy(token) && verify(token.value).Some? && !Truthy(verify(token.value).value.uid) ==> r.error.Unexpected?
  {
    if !Truthy(token) then Err(ResponseError(400, "Token verifikasi wajib ada."))
    else match verify(token.value)
      case None => Err(ResponseError(403, "Link verifikasi tidak valid atau sudah kadaluarsa."))
      case Some(claims) =>
        if !Truthy(claims.uid) then Err(Unexpected("documentPath is not a valid resource path"))
        else if claims.uid.value !in users then Err(ResponseError(404, "User tidak ditemukan."))
        else if claims.email != Some(users[claims.uid.value].email) then Err(ResponseError(403, "Token tidak valid untuk akun ini."))
        else Ok(claims.uid.value)
  }

  datatype Verification = Verification(message: string, email_verified_at: nat)

  /** `verifyEmail(request)`; a failure to mark the Firebase Auth account as
      verified is only logged. */
  method VerifyEmail(db: Database, token: Option<string>, verify: string -> Option<Claims>, now: nat)
    returns (r: Result<Verification>)
    modifies db
    ensures var check := VerificationCheck(old(db.users), token, verify);
            (check.Err? ==> r == Err(check.error) && unchanged(db)) &&
            (check.Ok? ==>
               var u := old(db.users)[check.value];
               // Verifying again answers with the first timestamp and writes nothing.
               (u.email_verified_at.Some? ==>
                  r == Ok(Verification("Email sudah terverifikasi sebelumnya.", u.email_verified_at.value)) && unchanged(db)) &&
               (u.email_verified_at.None? ==>
                  r == Ok(Verification("Email berhasil diverifikasi! Akun Anda kini aktif.", now)) &&
                  db.users == old(db.users)[check.value := u.(email_verified_at := Some(now), updated_at := now)]))
    ensures db.journals == old(db.journals) && db.notifications == old(db.notifications)
    ensures db.resetTokens == old(db.resetTokens)
  {
    var check := VerificationCheck(db.users, token, verify);
    if check.Err? {
      return Err(check.error);
    }
    var uid := check.value;
    var u := db.users[uid];
    if u.email_verified_at.Some? {
      return Ok(Verification("Email sudah terverifikasi sebelumnya.", u.email_verified_at.value));
    }
    db.users := db.users[uid := u.(email_verified_at := Some(now), updated_at := now)];
    return Ok(Verification("Email berhasil diverifikasi! Akun Anda kini aktif.", now));
  }

  /** Verification is idempotent: after a link has verified an account, the
      same link still passes the checks and finds the account verified at the
      time of the first use, so the second use writes nothing. */
  lemma VerifyTwice(users: map<string, User>, token: Option<string>, verify: string -> Option<Claims>, now: nat)
    requires VerificationCheck(users, token, verify).Ok?
    ensures var uid := VerificationCheck(users, token, verify).value;
            var after := users[uid := users[uid].(email_verified_at := Some(now), updated_at := now)];
            VerificationCheck(after, token, verify) == Ok(uid) && after[uid].email_verified_at == Some(now)
  {
  }

  /** A link issued for an account verifies that account, as long as its
      address has not changed; a resend check on it then finds it verified. */
  lemma IssuedLinkVerifies(users: map<string, User>, uid: string, token: string, verify: string -> Option<Claims>, now: nat)
    requires uid != "" && uid in users && token != ""
    requires verify(token) == Some(Claims(Some(uid), Some(users[uid].email)))
    ensures VerificationCheck(users, Some(token), verify) == Ok(uid)
    ensures ResendCheck(users[uid := users[uid].(email_verified_at := Some(now), updated_at := now)], uid, now) == Err(AlreadyVerified)
  {
  }

  // ----- Password reset -----

  /** `forgotPassword(request)`; `token` is the signed reset token. */
  method ForgotPassword(db: Database, email: string, token: string, now: nat, mailError: Option<string>)
    returns (r: Result<string>)
    modifies db
    ensures UsersWithEmail(old(db.users), email) == {} ==>
              r == Err(ResponseError(404, "Email tidak terdaftar.")) && unchanged(db)
    // One token per address: a new request replaces the previous token,
    // and stays stored even when the mail then fails.
    ensures UsersWithEmail(old(db.users), email) != {} ==>
              db.resetTokens == old(db.resetTokens)[email := ResetToken(email, token, now)] &&
              (mailError.Some? ==> r == Err(Unexpected(mailError.value))) &&
              (mailError.None? ==> r == Ok("Link reset password telah dikirim ke email Anda."))
    ensures db.journals == old(db.journals) && db.notifications == old(db.notifications)
    ensures db.users == old(db.users)
  {
    if UsersWithEmail(db.users, email) == {} {
      return Err(ResponseError(404, "Email tidak terdaftar."));
    }
    db.resetTokens := db.resetTokens[email := ResetToken(email, token, now)];
    if mailError.Some? {
      return Err(Unexpected(mailError.value));
    }
    return Ok("Link reset password telah dikirim ke email Anda.");
  }

  datatype ResetRequest = ResetRequest(email: string, token: string, password: string, password_confirmation: string)

  const ResetUsed := ResponseError(400, "Permintaan reset password tidak valid atau sudah digunakan.")
  const ResetTokenMismatch := ResponseError(400, "Token reset password tidak valid.")

  /** The checks `resetPassword` makes, in order, before it changes the password. */
  function ResetCheck(users: map<string, User>, resetTokens: map<string, ResetToken>, request: ResetRequest,
                      verify: string -> Option<Claims>): (r: Result<()>)
    // The confirmation is compared first, before the token is looked at.
    ensures request.password != request.password_confirmation ==>
              r == Err(ResponseError(400, "Konfirmasi password tidak cocok."))
    ensures r.Ok? <==> request.password == request.password_confirmation &&
                       verify(request.token).Some? && verify(request.token).value.email == Some(request.email) &&
                       request.email in resetTokens && resetTokens[request.email].token == request.token &&
                       UsersWithEmail(users, request.email) != {}
    ensures r.Err? ==> r.error.ResponseError? && r.error.status in {400, 404}
  {
    if request.password != request.password_confirmation then Err(ResponseError(400, "Konfirmasi password tidak cocok."))
    else match verify(request.token)
      case None => Err(ResponseError(400, "Token tidak valid atau sudah kadaluarsa."))
      case Some(claims) =>
        if claims.email != Some(request.email) then Err(ResponseError(400, "Token tidak valid untuk email ini."))
        else if request.email !in resetTokens then Err(ResetUsed)
        else if resetTokens[request.email].token != request.token then Err(ResetTokenMismatch)
        else if UsersWithEmail(users, request.email) == {} then Err(ResponseError(404, "User tidak ditemukan."))
        else Ok(())
  }

  /** `resetPassword(request)`; `authError` is the failure, if any, of setting
      the new password or revoking the refresh tokens in Firebase Auth. */
  method ResetPassword(db: Database, request: ResetRequest, verify: string -> Option<Claims>, authError: Option<string>)
    returns (r: Result<string>)
    modifies db
    ensures var check := ResetCheck(old(db.users), old(db.resetTokens), request, verify);
            (check.Err? ==> r == Err(check.error) && unchanged(db)) &&
            (check.Ok? && authError.Some? ==>
               r == Err(ResponseError(500, "Gagal mengupdate password: " + authError.value)) && unchanged(db)) &&
            // The token is used up by a successful reset.
            (check.Ok? && authError.None? ==>
               r == Ok("Password berhasil diubah. Silakan login dengan password baru.") &&
               db.resetTokens == old(db.resetTokens) - {request.email})
    ensures db.journals == old(db.journals) && db.notifications == old(db.notifications)
    ensures db.users == old(db.users)
  {
    var check := ResetCheck(db.users, db.resetTokens, request, verify);
    if check.Err? {
      return Err(check.error);
    }
    // `limit(1)` picks one account with the address; Firebase Auth's answer
    // for it is `authError`.
    if authError.Some? {
      return Err(ResponseError(500, "Gagal mengupdate password: " + authError.value));
    }
    db.resetTokens := db.resetTokens - {request.email};
    return Ok("Password berhasil diubah. Silakan login dengan password baru.");
  }

  /** A reset token works once: after a successful reset the same request is
      refused because no token is stored for the address any more. */
  lemma ResetTokenSingleUse(users: map<string, User>, resetTokens: map<string, ResetToken>, request: ResetRequest,
                            verify: string -> Option<Claims>)
    requires ResetCheck(users, resetTokens, request, verify).Ok?
    ensures ResetCheck(users, resetTokens - {request.email}, request, verify) == Err(ResetUsed)
  {
  }

  /** Only the latest token of an address can pass: once a newer token is
      stored, a request with an older one is refused. */
  lemma OnlyLatestResetToken(users: map<string, User>, resetTokens: map<string, ResetToken>, request: ResetRequest,
                             verify: string -> Option<Claims>, newer: string, now: nat)
    requires newer != request.token
    ensures ResetCheck(users, resetTokens[request.email := ResetToken(request.email, newer, now)], request, verify).Err?
  {
  }

  /** A token from `forgotPassword`, used with the address it was issued for
      and a matching confirmation, passes every check. */
  lemma IssuedResetTokenAccepted(users: map<string, User>, resetTokens: map<string, ResetToken>, request: ResetRequest,
                                 verify: string -> Option<Claims>, now: nat)
    requires UsersWithEmail(users, request.email) != {}
    requires request.password == request.password_confirmation
    requires verify(request.token) == Some(Claims(None, Some(request.email)))
    ensures ResetCheck(users, resetTokens[request.email := ResetToken(request.email, request.token, now)], request, verify) == Ok(())
  {
  }
}
