/** The Firestore collections the services read and write
    (backend/src/applications/database.js): `journals`, `users`,
    `notifications` and `password_reset_tokens`, each a map from document id
    to document. Timestamps, stored by the services as ISO strings, are
    milliseconds since the epoch here; the ISO order the queries rely on is
    the order of the numbers. */
module DocumentStore {
  import opened Wrappers
  import opened JsonValues

  /** A document of `journals`. The AI-written properties hold whatever JSON
      value the model produced, so they are kept as JSON values. */
  datatype Journal = Journal(
    id: string,
    user_id: string,
    title: string,
    note: string,
    video_url: Option<string>,
    photo_url: Option<string>,
    image_path: Option<string>,
    emotion: JsonValue,
    expression: JsonValue,
    confidence: JsonValue,
    similarity: JsonValue,
    tags: JsonValue,
    illustrator: JsonValue,
    illustrator_urls: JsonValue,
    chatbot_suggestion: JsonValue,
    chatbot_highlight: JsonValue,
    chatbot_strategy: JsonValue,
    created_at: nat,
    updated_at: nat)

  /** A document of `users`, keyed by the Firebase Auth uid. `updatedAt` is the
      camel-case property only the profile update writes, next to `updated_at`. */
  datatype User = User(
    uid: string,
    name: string,
    email: string,
    password: string,
    email_verified_at: Option<nat>,
    remember_token: Option<string>,
    fcm_token: Option<string>,
    last_entry_at: nat,
    last_entry: Option<nat>,
    last_reminder_at: Option<nat>,
    created_at: nat,
    updated_at: nat,
    last_verification_sent_at: Option<nat>,
    updatedAt: Option<nat>)

  /** The properties of a notification's payload the list reads. */
  datatype Payload = Payload(title: JsonValue, message: JsonValue)

  /** What `JSON.parse` makes of a string: an object (or any other value,
      whose properties read as undefined), `null`, or a syntax error. */
  datatype JsonParse = Parsed(payload: Payload) | ParsedNull | Invalid

  /** The `data` property of a notification: a JSON string, stood for by what
      parsing it gives; a non-string truthy value; or a falsy one. */
  datatype NotificationData = Text(parsed: JsonParse) | Structured(payload: Payload) | Falsy

  /** A document of `notifications`; `kind` is its `type` property. */
  datatype Notification = Notification(
    id: string,
    kind: string,
    notifiable_type: string,
    notifiable_id: string,
    data: NotificationData,
    read_at: Option<nat>,
    created_at: nat,
    updated_at: nat)

  /** A document of `password_reset_tokens`, keyed by the email. */
  datatype ResetToken = ResetToken(email: string, token: string, created_at: nat)

  /** The Firestore database. */
  class Database {
    var journals: map<string, Journal>
    var users: map<string, User>
    var notifications: map<string, Notification>
    var resetTokens: map<string, ResetToken>

    constructor (journals: map<string, Journal>, users: map<string, User>,
                 notifications: map<string, Notification>, resetTokens: map<string, ResetToken>)
      ensures this.journals == journals && this.users == users
      ensures this.notifications == notifications && this.resetTokens == resetTokens
    {
      this.journals := journals;
      this.users := users;
      this.notifications := notifications;
      this.resetTokens := resetTokens;
    }
  }

  /** The ids of the users whose `email` equals `email`: what a
      `where("email", "==", email)` query returns. */
  function UsersWithEmail(users: map<string, User>, email: string): set<string>
  {
    set id | id in users && users[id].email == email
  }

  predicate Distinct(ids: seq<string>) {
    forall i, j :: 0 <= i < j < |ids| ==> ids[i] != ids[j]
  }

  /** `stamp` does not increase along `ids`. */
  predicate Descending(ids: seq<string>, stamp: string -> int) {
    forall i, j :: 0 <= i < j < |ids| ==> stamp(ids[i]) >= stamp(ids[j])
  }

  /** A finite non-empty set has an element with the largest stamp. */
  lemma {:induction false} LatestExists(ids: set<string>, stamp: string -> int)
    requires ids != {}
    ensures exists x :: x in ids && forall y :: y in ids ==> stamp(y) <= stamp(x)
    decreases |ids|
  {
    var a :| a in ids;
    var rest := ids - {a};
    if rest != {} {
      LatestExists(rest, stamp);
      var b :| b in rest && forall y :: y in rest ==> stamp(y) <= stamp(b);
      if stamp(a) > stamp(b) {
        assert forall y :: y in ids ==> stamp(y) <= stamp(a);
      } else {
        assert forall y :: y in ids ==> stamp(y) <= stamp(b);
      }
    } else {
      assert ids == {a};
    }
  }

  /** `orderBy(field, "desc")` over the documents `ids`: every document once,
      newest first. Documents with equal stamps may come in any order. */
  method NewestFirst(ids: set<string>, stamp: string -> int) returns (order: seq<string>)
    ensures |order| == |ids| && Distinct(order)
    ensures forall x :: x in order <==> x in ids
    ensures Descending(order, stamp)
  {
    order := [];
    var rest := ids;
    while rest != {}
      invariant rest <= ids
      invariant |order| + |rest| == |ids|
      invariant forall x :: x in ids ==> (x in order <==> x !in rest)
      invariant forall x :: x in order ==> x in ids
      invariant Distinct(order) && Descending(order, stamp)
      invariant forall i, y :: 0 <= i < |order| && y in rest ==> stamp(y) <= stamp(order[i])
      decreases |rest|
    {
      LatestExists(rest, stamp);
      var x :| x in rest && forall y :: y in rest ==> stamp(y) <= stamp(x);
      order := order + [x];
      rest := rest - {x};
    }
  }

  /** The first `k` of a newest-first ordering are the `k` newest: none of the
      rest is newer than any of them. */
  lemma NewestPrefix(order: seq<string>, k: nat, stamp: string -> int)
    requires Distinct(order) && Descending(order, stamp) && k <= |order|
    ensures Distinct(order[..k]) && Descending(order[..k], stamp)
    ensures forall x, i :: x in order && x !in order[..k] && 0 <= i < k ==> stamp(x) <= stamp(order[i])
  {
    assert forall m :: 0 <= m < k ==> order[..k][m] == order[m];
    forall x, i | x in order && x !in order[..k] && 0 <= i < k
      ensures stamp(x) <= stamp(order[i])
    {
      var j :| 0 <= j < |order| && order[j] == x;
    }
  }
}
