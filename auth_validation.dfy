/** The account request schemas of backend/src/validations/auth-validation.js.
    `isEmail` is Joi's `email()` test. */
module AuthValidation {
  import opened Wrappers
  import opened JsString
  import opened JoiStrings

  const NameRule := StringRule(true, false, None, Some(100), false)
  const EmailRule := StringRule(true, false, None, Some(100), true)
  const PasswordRule := StringRule(true, false, Some(6), Some(100), false)

  datatype RegisterBody = RegisterBody(name: Option<string>, email: Option<string>, password: Option<string>)
  datatype LoginBody = LoginBody(email: Option<string>, password: Option<string>)
  datatype ForgotBody = ForgotBody(email: Option<string>)
  datatype ResetBody = ResetBody(token: Option<string>, email: Option<string>, password: Option<string>,
                                 password_confirmation: Option<string>)

  /** `registerUserValidation`. */
  predicate ValidRegister(body: RegisterBody, isEmail: string -> bool) {
    Accepts(NameRule, body.name, isEmail) && Accepts(EmailRule, body.email, isEmail) &&
    Accepts(PasswordRule, body.password, isEmail)
  }

  /** `loginUserValidation`. */
  predicate ValidLogin(body: LoginBody, isEmail: string -> bool) {
    Accepts(EmailRule, body.email, isEmail) && Accepts(PasswordRule, body.password, isEmail)
  }

  /** `forgotPasswordValidation`. */
  predicate ValidForgot(body: ForgotBody, isEmail: string -> bool) {
    Accepts(EmailRule, body.email, isEmail)
  }

  /** `resetPasswordValidation`: the confirmation must be present and equal
      to the password. */
  predicate ValidReset(body: ResetBody, isEmail: string -> bool) {
    Accepts(StringRule(true, false, None, None, false), body.token, isEmail) &&
    Accepts(StringRule(true, false, None, None, true), body.email, isEmail) &&
    Accepts(PasswordRule, body.password, isEmail) &&
    body.password_confirmation.Some? && body.password_confirmation == body.password
  }

  /** A valid password has 6 to 100 code units. */
  predicate GoodPassword(p: Option<string>) {
    p.Some? && 6 <= JsLength(p.value) <= 100
  }

  /** A valid e-mail property is a non-empty e-mail address of at most 100 code units. */
  predicate GoodEmail(e: Option<string>, isEmail: string -> bool) {
    Truthy(e) && isEmail(e.value) && JsLength(e.value) <= 100
  }

  /** Registration needs a name of 1 to 100 code units, an address and a password. */
  lemma RegisterRule(body: RegisterBody, isEmail: string -> bool)
    ensures ValidRegister(body, isEmail) <==>
              Truthy(body.name) && JsLength(body.name.value) <= 100 &&
              GoodEmail(body.email, isEmail) && GoodPassword(body.password)
  {
  }

  /** Logging in needs an address and a password, both bounded as for registering. */
  lemma LoginRule(body: LoginBody, isEmail: string -> bool)
    ensures ValidLogin(body, isEmail) <==> GoodEmail(body.email, isEmail) && GoodPassword(body.password)
  {
  }

  /** Asking for a reset link needs an address, bounded as for registering. */
  lemma ForgotRule(body: ForgotBody, isEmail: string -> bool)
    ensures ValidForgot(body, isEmail) <==> GoodEmail(body.email, isEmail)
  {
  }

  /** A reset needs a token, an address of any length, a good password and the
      same password again; so a valid reset never fails the service's
      confirmation check. */
  lemma ResetRule(body: ResetBody, isEmail: string -> bool)
    ensures ValidReset(body, isEmail) <==>
              Truthy(body.token) && Truthy(body.email) && isEmail(body.email.value) &&
              GoodPassword(body.password) && body.password_confirmation == body.password
    ensures ValidReset(body, isEmail) ==> body.password_confirmation.value == body.password.value
  {
  }

  /** The reset schema caps neither the address nor the token: an address too
      long to register with is still accepted there. */
  lemma ResetEmailUncapped(token: string, email: string, password: string, isEmail: string -> bool)
    requires token != "" && email != "" && isEmail(email) && 6 <= JsLength(password) <= 100
    ensures ValidReset(ResetBody(Some(token), Some(email), Some(password), Some(password)), isEmail)
    ensures 100 < JsLength(email) ==> !ValidForgot(ForgotBody(Some(email)), isEmail)
  {
  }
}
