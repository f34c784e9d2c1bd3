/** The account settings of backend/src/services/user-service.js: the display
    name, the password, deleting the account and registering a device for
    push messages.

    Each request reads the clock once (`now`). The Identity Toolkit check of
    the old password and the Firebase Auth mutations are oracles: their
    answers are parameters. */
module UserService {
  import opened Wrappers
  import opened DocumentStore
  import opened InactiveUsersJob

  const UserNotFound := ResponseError(404, "User tidak ditemukan")

  /** `updateProfile(user, request)`: the stored profile after the update. A
      failure to rename the Firebase Auth account is only logged, so it is
      not a parameter. */
  method UpdateProfile(db: Database, uid: string, name: Option<string>, now: nat) returns (r: Result<User>)
    modifies db
    ensures uid !in old(db.users) ==> r == Err(UserNotFound) && unchanged(db)
    ensures uid in old(db.users) ==>
              var before := old(db.users)[uid];
              // `updatedAt` (camel case) is always written; `updated_at` is not touched.
              r == Ok(before.(updatedAt := Some(now), name := if Truthy(name) then name.value else before.name)) &&
              db.users == old(db.users)[uid := r.value]
    ensures db.journals == old(db.journals) && db.notifications == old(db.notifications)
    ensures db.resetTokens == old(db.resetTokens)
  {
    if uid !in db.users {
      return Err(UserNotFound);
    }
    var updated := db.users[uid].(updatedAt := Some(now));
    if Truthy(name) {
      updated := updated.(name := name.value);
    }
    db.users := db.users[uid := updated];
    return Ok(db.users[uid]);
  }

  /** `updatePassword(user, request)`. `oldPasswordAccepted` is whether the
      sign-in with the stored address and the old password succeeded;
      `updateError` the failure, if any, of setting the new password. Nothing
      is written to the database. */
  function UpdatePassword(users: map<string, User>, uid: string, oldPasswordAccepted: bool,
                          updateError: Option<string>): (r: Result<string>)
    // The checks come in this order: the profile, the old password, the update.
    ensures uid !in users ==> r == Err(UserNotFound)
    ensures uid in users && !oldPasswordAccepted ==> r == Err(ResponseError(401, "Password lama salah"))
    ensures uid in users && oldPasswordAccepted && updateError.Some? ==>
              r == Err(ResponseError(400, "Gagal update password: " + updateError.value))
    ensures r.Ok? <==> uid in users && oldPasswordAccepted && updateError.None?
    ensures r.Ok? ==> r.value == "Password berhasil diperbarui, silakan login kembali dengan password baru"
  {
    if uid !in users then Err(UserNotFound)
    else if !oldPasswordAccepted then Err(ResponseError(401, "Password lama salah"))
    else match updateError
      case Some(e) => Err(ResponseError(400, "Gagal update password: " + e))
      case None => Ok("Password berhasil diperbarui, silakan login kembali dengan password baru")
  }

  /** `deleteAccount(user)`; `authError` is the failure, if any, of deleting
      the Firebase Auth account, which comes first. */
  method DeleteAccount(db: Database, uid: string, authError: Option<string>) returns (r: Result<string>)
    modifies db
    ensures authError.Some? ==> r == Err(ResponseError(500, "Gagal menghapus akun: " + authError.value)) && unchanged(db)
    // The profile goes only once the account is gone; the journals,
    // notifications and uploads of the user stay.
    ensures authError.None? ==> r == Ok("Akun berhasil dihapus permanen") && db.users == old(db.users) - {uid}
    ensures db.journals == old(db.journals) && db.notifications == old(db.notifications)
    ensures db.resetTokens == old(db.resetTokens)
  {
    if authError.Some? {
      return Err(ResponseError(500, "Gagal menghapus akun: " + authError.value));
    }
    db.users := db.users - {uid};
    return Ok("Akun berhasil dihapus permanen");
  }

  datatype FcmSaved = FcmSaved(message: string, user_id: string)

  /** `setFcmToken(user, request)`. */
  method SetFcmToken(db: Database, uid: string, token: string, now: nat) returns (r: Result<FcmSaved>)
    modifies db
    ensures uid !in old(db.users) ==> r == Err(UserNotFound) && unchanged(db)
    ensures uid in old(db.users) ==>
              r == Ok(FcmSaved("FCM token berhasil disimpan", uid)) &&
              db.users == old(db.users)[uid := old(db.users)[uid].(fcm_token := Some(token), updated_at := now)]
    ensures db.journals == old(db.journals) && db.notifications == old(db.notifications)
    ensures db.resetTokens == old(db.resetTokens)
  {
    if uid !in db.users {
      return Err(UserNotFound);
    }
    db.users := db.users[uid := db.users[uid].(fcm_token := Some(token), updated_at := now)];
    return Ok(FcmSaved("FCM token berhasil disimpan", uid));
  }

  /** Registering a device is what makes an inactive user reachable: with a
      non-empty token, an inactive user not reminded in the last day is
      reminded by the next run of the job, and without one is not. */
  lemma FcmTokenEnablesReminder(u: User, token: string, t: nat, now: int)
    requires Inactive(u, now)
    requires !(u.last_reminder_at.Some? && u.last_reminder_at.value > now - OneDay)
    ensures Eligible(u.(fcm_token := Some(token), updated_at := t), now) <==> token != ""
  {
  }
}
