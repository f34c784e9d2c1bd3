/** The journal request schemas of backend/src/validations/journal-validation.js. */
module JournalValidation {
  import opened Wrappers
  import opened JsString
  import opened JoiStrings

  /** The text properties of a create or update request. */
  datatype JournalBody = JournalBody(title: Option<string>, note: Option<string>)

  const NoteRule := StringRule(false, true, None, None, false)

  /** `createJournalValidation`. The schemas use no `email()` rule, so the
      e-mail test handed to Joi plays no part. */
  predicate ValidCreateJournal(body: JournalBody) {
    Accepts(StringRule(true, false, None, Some(255), false), body.title, s => false) &&
    Accepts(NoteRule, body.note, s => false)
  }

  /** `updateJournalValidation`. */
  predicate ValidUpdateJournal(body: JournalBody) {
    Accepts(StringRule(false, false, None, Some(255), false), body.title, s => false) &&
    Accepts(NoteRule, body.note, s => false)
  }

  /** A create request passes exactly when its title is present, not empty
      and at most 255 code units long; the note may be absent or any string,
      the empty one included. Such a title passes the service's own check. */
  lemma CreateJournalRule(body: JournalBody)
    ensures ValidCreateJournal(body) <==> Truthy(body.title) && JsLength(body.title.value) <= 255
    ensures ValidCreateJournal(body) ==> |body.title.value| <= 255
  {
    if ValidCreateJournal(body) {
      AcceptedLength(StringRule(true, false, None, Some(255), false), body.title.value, s => false);
    }
  }

  /** An update request may leave the title out, but a title it gives obeys the
      create rule; the note is free. */
  lemma UpdateJournalRule(body: JournalBody)
    ensures ValidUpdateJournal(body) <==> body.title.None? || (body.title.value != "" && JsLength(body.title.value) <= 255)
    ensures ValidUpdateJournal(JournalBody(None, body.note))
  {
  }

  /** Every valid create request is also a valid update request. */
  lemma CreateIsUpdate(body: JournalBody)
    requires ValidCreateJournal(body)
    ensures ValidUpdateJournal(body)
  {
  }
}
