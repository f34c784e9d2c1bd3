/** The reminder job of backend/src/jobs/checkInactiveUsers.js: every user
    who has not written a journal for 48 hours, has a device token and was not
    reminded in the last 24 hours gets a push message, a notification record
    and a new `last_reminder_at`.

    The job reads the clock once (`now`) and stamps its writes with it; the
    users are handled one after the other, in no particular order;
    `notificationId(uid)` is the `uuidv4()` drawn for user `uid`. */
module InactiveUsersJob {
  import opened Wrappers
  import opened JsonValues
  import opened DocumentStore
  import opened NotificationService

  const TwoDays: int := 48 * 60 * 60 * 1000
  const OneDay: int := 24 * 60 * 60 * 1000

  const ReminderTitle := "We want to hear your story again :("

  /** The reminder text, with its apostrophe stored as the three characters
      `â€™` (the UTF-8 bytes of U+2019 read as Windows-1252). */
  function ReminderBody(name: string): string {
    "Hey " + (if name != "" then name else "Friend") + ", it\U{00E2}\U{20AC}\U{2122}s been 48 hours since your last journal."
  }

  /** The query `where("last_entry", "<", cutoff)`: users whose last journal is
      older than 48 hours. A user who never wrote one has no `last_entry`
      and is not matched. */
  predicate Inactive(u: User, now: int) {
    u.last_entry.Some? && u.last_entry.value < now - TwoDays
  }

  /** A user the job reminds. */
  predicate Eligible(u: User, now: int) {
    Inactive(u, now) && Truthy(u.fcm_token) &&
    !(u.last_reminder_at.Some? && u.last_reminder_at.value > now - OneDay)
  }

  function EligibleIds(users: map<string, User>, now: int): set<string>
  {
    set id | id in users && Eligible(users[id], now)
  }

  /** The push message sent to a user's device. */
  datatype Push = Push(token: string, title: string, body: string)

  function PushFor(u: User): Push
    requires Truthy(u.fcm_token)
  {
    Push(u.fcm_token.value, ReminderTitle, ReminderBody(u.name))
  }

  /** The notification record written for user `uid` under id `nid`. */
  function Reminder(nid: string, uid: string, name: string, now: nat): (n: Notification)
    ensures n.id == nid && n.notifiable_id == uid && n.kind == "reminder" && n.read_at.None?
  {
    Notification(nid, "reminder", "user", uid,
                 Text(Parsed(Payload(Str(ReminderTitle), Str(ReminderBody(name))))),
                 None, now, now)
  }

  /** The reminder shows its title and body in the notification list. */
  lemma ReminderView(nid: string, uid: string, name: string, now: nat)
    ensures View(nid, Reminder(nid, uid, name, now)) ==
            Ok(NotificationView(nid, Str(ReminderTitle), Str(ReminderBody(name)), None, now))
  {
    assert ReminderBody(name) != "" by {
      assert |ReminderBody(name)| > 0;
    }
  }

  /** The users after `ids` have been reminded at `now`. */
  function Stamped(users: map<string, User>, ids: set<string>, now: nat): (after: map<string, User>)
    ensures after.Keys == users.Keys
  {
    map id | id in users :: if id in ids then users[id].(last_reminder_at := Some(now)) else users[id]
  }

  /** Distinct users get distinct notification ids. */
  ghost predicate Injective(notificationId: string -> string) {
    forall a, b :: a != b ==> notificationId(a) != notificationId(b)
  }

  /** The notifications written for the users `ids`. */
  function Reminders(users: map<string, User>, ids: set<string>, now: nat, notificationId: string -> string): map<string, Notification>
    requires Injective(notificationId)
  {
    map id | id in ids && id in users :: notificationId(id) := Reminder(notificationId(id), id, users[id].name, now)
  }

  /** The push messages sent to the users `ids` that have a device token. */
  function Pushes(users: map<string, User>, ids: set<string>): map<string, Push> {
    map id | id in ids && id in users && Truthy(users[id].fcm_token) :: PushFor(users[id])
  }

  /** A user reminded at `t` becomes eligible again only once 24 hours have passed. */
  lemma EligibleAfterReminder(u: User, t: nat, later: int)
    ensures Eligible(u.(last_reminder_at := Some(t)), later) <==>
              Inactive(u, later) && Truthy(u.fcm_token) && later >= t + OneDay
  {
  }

  /** After the job nobody is eligible at the same `now`: a second run sends nothing. */
  lemma {:induction false} NoneEligibleAfterRun(users: map<string, User>, now: nat)
    ensures EligibleIds(Stamped(users, EligibleIds(users, now), now), now) == {}
  {
    var after := Stamped(users, EligibleIds(users, now), now);
    forall id | id in after
      ensures !Eligible(after[id], now)
    {
      if id in EligibleIds(users, now) {
        EligibleAfterReminder(users[id], now, now);
      }
    }
  }

  lemma StampedStep(users: map<string, User>, done: set<string>, id: string, now: nat)
    requires id in users
    ensures Stamped(users, done + {id}, now) == Stamped(users, done, now)[id := users[id].(last_reminder_at := Some(now))]
  {
  }

  lemma RemindersStep(users: map<string, User>, done: set<string>, id: string, now: nat, notificationId: string -> string)
    requires id in users
    requires Injective(notificationId)
    ensures Reminders(users, done + {id}, now, notificationId)
         == Reminders(users, done, now, notificationId)[notificationId(id) := Reminder(notificationId(id), id, users[id].name, now)]
  {
  }

  lemma PushesStep(users: map<string, User>, done: set<string>, id: string)
    requires id in users && Truthy(users[id].fcm_token)
    ensures Pushes(users, done + {id}) == Pushes(users, done)[id := PushFor(users[id])]
  {
  }

  /** Taking one more candidate off the pending set adds it to the processed
      eligible users exactly when it is eligible. */
  lemma DoneStep(candidates: set<string>, rest: set<string>, eligible: set<string>, u: string)
    requires u in rest && rest <= candidates
    ensures (candidates - (rest - {u})) * eligible ==
            if u in eligible then (candidates - rest) * eligible + {u} else (candidates - rest) * eligible
  {
  }

  /** Writing a key after a merge is writing it into the merged-in map. */
  lemma MergeWrite(written: map<string, Notification>, reminders: map<string, Notification>, k: string, v: Notification)
    ensures written + reminders[k := v] == (written + reminders)[k := v]
  {
  }

  /** Nobody reminded yet: the users as they were, and no notifications. */
  lemma NothingDone(users: map<string, User>, notifications: map<string, Notification>, now: nat, notificationId: string -> string)
    requires Injective(notificationId)
    ensures Stamped(users, {}, now) == users
    ensures notifications + Reminders(users, {}, now, notificationId) == notifications
  {
    assert Reminders(users, {}, now, notificationId) == map[];
  }

  /** Once every candidate has been taken, the processed eligible users are all the eligible ones. */
  lemma AllDone(users: map<string, User>, now: nat, candidates: set<string>)
    requires candidates == set id | id in users && Inactive(users[id], now)
    ensures (candidates - {}) * EligibleIds(users, now) == EligibleIds(users, now)
  {
  }

  /** What the job has done once it has reminded the users `done`: that many
      processed, a push to each, each stamped, a notification for each. */
  ghost predicate Accounted(users: map<string, User>, before: map<string, Notification>, now: nat,
                            notificationId: string -> string, done: set<string>, countProcessed: nat,
                            pushes: map<string, Push>, stamped: map<string, User>, written: map<string, Notification>)
    requires Injective(notificationId)
  {
    countProcessed == |done| && pushes == Pushes(users, done) && stamped == Stamped(users, done, now) &&
    written == before + Reminders(users, done, now, notificationId)
  }

  /** One turn of the job's loop: taking user `u` off the pending set keeps
      the loop's account of what has been done, whether `u` is reminded or
      skipped. */
  lemma Advance(users: map<string, User>, before: map<string, Notification>, now: nat, notificationId: string -> string,
                candidates: set<string>, rest: set<string>, done: set<string>, u: string, countProcessed: nat,
                pushes: map<string, Push>, stamped: map<string, User>, written: map<string, Notification>)
    requires Injective(notificationId)
    requires candidates <= users.Keys && u in rest && rest <= candidates
    requires done == (candidates - rest) * EligibleIds(users, now)
    requires Accounted(users, before, now, notificationId, done, countProcessed, pushes, stamped, written)
    ensures !Eligible(users[u], now) ==> (candidates - (rest - {u})) * EligibleIds(users, now) == done
    ensures Eligible(users[u], now) ==>
              var nid := notificationId(u);
              u in stamped &&
              (candidates - (rest - {u})) * EligibleIds(users, now) == done + {u} &&
              Accounted(users, before, now, notificationId, done + {u}, countProcessed + 1,
                        pushes[u := PushFor(users[u])],
                        stamped[u := stamped[u].(last_reminder_at := Some(now))],
                        written[nid := Reminder(nid, u, users[u].name, now)])
  {
    DoneStep(candidates, rest, EligibleIds(users, now), u);
    if Eligible(users[u], now) {
      var nid := notificationId(u);
      assert u !in done;
      PushesStep(users, done, u);
      RemindersStep(users, done, u, now, notificationId);
      MergeWrite(before, Reminders(users, done, now, notificationId), nid, Reminder(nid, u, users[u].name, now));
      StampedStep(users, done, u, now);
    }
  }

  /** The loop of `checkInactiveUsers()` over the users matched by the query:
      returns how many were reminded, the push sent to each, and the `users`
      and `notifications` collections after the run. */
  method RemindAll(users: map<string, User>, before: map<string, Notification>, now: nat, notificationId: string -> string)
    returns (countProcessed: nat, pushes: map<string, Push>, stamped: map<string, User>, written: map<string, Notification>)
    requires Injective(notificationId)
    ensures var eligible := EligibleIds(users, now);
            countProcessed == |eligible| &&
            pushes == Pushes(users, eligible) &&
            stamped == Stamped(users, eligible, now) &&
            written == before + Reminders(users, eligible, now, notificationId)
  {
    var candidates := set id | id in users && Inactive(users[id], now);
    var rest := candidates;
    ghost var done: set<string> := {};
    stamped := users;
    written := before;
    NothingDone(users, before, now, notificationId);
    countProcessed := 0;
    pushes := map[];
    while rest != {}
      invariant rest <= candidates && done == (candidates - rest) * EligibleIds(users, now)
      invariant Accounted(users, before, now, notificationId, done, countProcessed, pushes, stamped, written)
      decreases |rest|
    {
      var userId :| userId in rest;
      Advance(users, before, now, notificationId, candidates, rest, done, userId, countProcessed, pushes, stamped, written);
      rest := rest - {userId};
      var user := users[userId];
      if Truthy(user.fcm_token) && !(user.last_reminder_at.Some? && user.last_reminder_at.value > now - OneDay) {
        var nid := notificationId(userId);
        // A failed send is logged and changes nothing else.
        pushes := pushes[userId := PushFor(user)];
        written := written[nid := Reminder(nid, userId, user.name, now)];
        stamped := stamped[userId := stamped[userId].(last_reminder_at := Some(now))];
        done := done + {userId};
        countProcessed := countProcessed + 1;
      }
    }
    AllDone(users, now, candidates);
  }

  /** `checkInactiveUsers()`. Returns the number of users processed (which
      the job only logs) and the push message sent to each of them. */
  method CheckInactiveUsers(db: Database, now: nat, notificationId: string -> string)
    returns (countProcessed: nat, pushes: map<string, Push>)
    requires Injective(notificationId)
    modifies db
    ensures var eligible := EligibleIds(old(db.users), now);
            countProcessed == |eligible| &&
            pushes == Pushes(old(db.users), eligible) &&
            db.users == Stamped(old(db.users), eligible, now) &&
            db.notifications == old(db.notifications) + Reminders(old(db.users), eligible, now, notificationId)
    ensures db.journals == old(db.journals) && db.resetTokens == old(db.resetTokens)
  {
    var stamped, written;
    countProcessed, pushes, stamped, written := RemindAll(db.users, db.notifications, now, notificationId);
    db.users := stamped;
    db.notifications := written;
  }
}
