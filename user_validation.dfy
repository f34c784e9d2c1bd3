/** The settings request schemas of backend/src/validations/user-validation.js. */
module UserValidation {
  import opened Wrappers
  import opened JsString
  import opened JoiStrings

  datatype ProfileBody = ProfileBody(name: Option<string>)
  datatype PasswordBody = PasswordBody(oldPassword: Option<string>, newPassword: Option<string>)
  datatype FcmBody = FcmBody(token: Option<string>)

  const PasswordRule := StringRule(true, false, Some(6), Some(100), false)

  /** `updateUserValidation`. */
  predicate ValidProfile(body: ProfileBody) {
    Accepts(StringRule(true, false, None, Some(100), false), body.name, s => false)
  }

  /** `updatePasswordValidation`. */
  predicate ValidPasswordChange(body: PasswordBody) {
    Accepts(PasswordRule, body.oldPassword, s => false) && Accepts(PasswordRule, body.newPassword, s => false)
  }

  /** `fcmTokenValidation`. */
  predicate ValidFcmToken(body: FcmBody) {
    Accepts(StringRule(true, false, None, None, false), body.token, s => false)
  }

  /** A profile update needs a name of 1 to 100 code units, so a valid update
      always renames (the service renames on a truthy name). */
  lemma ProfileRule(body: ProfileBody)
    ensures ValidProfile(body) <==> Truthy(body.name) && JsLength(body.name.value) <= 100
  {
  }

  /** Both passwords are required and each has 6 to 100 code units. */
  lemma PasswordChangeRule(body: PasswordBody)
    ensures ValidPasswordChange(body) <==>
              body.oldPassword.Some? && 6 <= JsLength(body.oldPassword.value) <= 100 &&
              body.newPassword.Some? && 6 <= JsLength(body.newPassword.value) <= 100
  {
  }

  /** The token is required and may not be empty. */
  lemma FcmTokenRule(body: FcmBody)
    ensures ValidFcmToken(body) <==> Truthy(body.token)
  {
  }
}
