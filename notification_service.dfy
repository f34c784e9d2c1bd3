/** The notification inbox of backend/src/services/notification-service.js:
    the newest notifications of a user, rendered for display, and marking one
    as read. */
module NotificationService {
  import opened Wrappers
  import opened JsonValues
  import opened DocumentStore

  const DefaultLimit: nat := 50
  const NotFound := ResponseError(404, "Notifikasi tidak ditemukan")

  /** One entry of the list response. */
  datatype NotificationView = NotificationView(id: string, title: JsonValue, message: JsonValue,
                                               read_at: Option<nat>, created_at: nat)

  /** The payload the list reads the title and message from, or `None` when
      reading a property of it throws (the JSON text was `null`). */
  function PayloadOf(data: NotificationData): (p: Option<Payload>)
    ensures p.None? <==> data == Text(ParsedNull)
    ensures data == Text(Invalid) ==> p == Some(Payload(Str("Notification"), Str("Failed to load content")))
    ensures data == Falsy ==> p == Some(Payload(Undefined, Undefined))
  {
    match data
    case Text(Parsed(payload)) => Some(payload)
    case Text(ParsedNull) => None
    case Text(Invalid) => Some(Payload(Str("Notification"), Str("Failed to load content")))
    case Structured(payload) => Some(payload)
    case Falsy => Some(Payload(Undefined, Undefined))
  }

  /** How the list renders the notification stored under `id`. */
  function View(id: string, n: Notification): (r: Result<NotificationView>)
    ensures r.Err? <==> n.data == Text(ParsedNull)
    ensures r.Ok? ==> r.value.id == id && r.value.read_at == n.read_at && r.value.created_at == n.created_at
    // Neither the title nor the message is ever empty.
    ensures r.Ok? ==> JsTruthy(r.value.title) && JsTruthy(r.value.message)
    ensures r.Ok? ==> var p := PayloadOf(n.data).value;
              r.value.title == (if JsTruthy(p.title) then p.title else Str("No Title")) &&
              r.value.message == (if JsTruthy(p.message) then p.message
                                  else if n.kind != "" then Str(n.kind) else Str("No Message"))
  {
    match PayloadOf(n.data)
    case None => Err(Unexpected("TypeError: Cannot read properties of null"))
    case Some(p) =>
      Ok(NotificationView(id, Or(p.title, Str("No Title")), Or(Or(p.message, Str(n.kind)), Str("No Message")),
                          n.read_at, n.created_at))
  }

  /** Unparseable data is shown as a generic notification. */
  lemma InvalidDataView(id: string, n: Notification)
    requires n.data == Text(Invalid)
    ensures View(id, n) == Ok(NotificationView(id, Str("Notification"), Str("Failed to load content"), n.read_at, n.created_at))
  {
  }

  /** `snapshot.docs.map(...)`: the views of the notifications `ids`, in order;
      the first that throws rejects the whole list. */
  function Views(notifications: map<string, Notification>, ids: seq<string>): (r: Result<seq<NotificationView>>)
    requires forall i :: 0 <= i < |ids| ==> ids[i] in notifications
    ensures r.Ok? <==> forall i :: 0 <= i < |ids| ==> View(ids[i], notifications[ids[i]]).Ok?
    ensures r.Ok? ==> (|r.value| == |ids| &&
                       forall i :: 0 <= i < |ids| ==> Ok(r.value[i]) == View(ids[i], notifications[ids[i]]))
  {
    if ids == [] then Ok([])
    else match View(ids[0], notifications[ids[0]])
      case Err(e) => Err(e)
      case Ok(v) =>
        match Views(notifications, ids[1..])
        case Err(e) => Err(e)
        case Ok(vs) => Ok([v] + vs)
  }

  /** The ids of the notifications addressed to `uid`. */
  function Addressed(notifications: map<string, Notification>, uid: string): set<string>
  {
    set id | id in notifications && notifications[id].notifiable_id == uid
  }

  /** The first `k` of the notifications `mine`, ordered newest first by
      `stamp`, which reads `created_at`. */
  lemma NewestListed(ns: map<string, Notification>, mine: set<string>, order: seq<string>, k: nat, stamp: string -> int)
    requires forall id :: id in ns ==> stamp(id) == ns[id].created_at
    requires mine <= ns.Keys && k <= |order| == |mine|
    requires Distinct(order) && Descending(order, stamp) && forall x :: x in order <==> x in mine
    ensures var ids := order[..k];
            Distinct(ids) && |ids| == k &&
            (forall i :: 0 <= i < |ids| ==> ids[i] in mine) &&
            (forall i, j :: 0 <= i < j < |ids| ==> ns[ids[i]].created_at >= ns[ids[j]].created_at) &&
            (forall x, i :: x in mine && x !in ids && 0 <= i < |ids| ==> ns[x].created_at <= ns[ids[i]].created_at)
  {
    NewestPrefix(order, k, stamp);
    var ids := order[..k];
    forall i | 0 <= i < |ids|
      ensures ids[i] in mine
    {
      assert ids[i] == order[i];
    }
  }

  /** `list(user, request)`. `limit` is the `parseInt` of a truthy `limit`
      parameter, `None` when the parameter is absent or empty. `ids` are the
      documents of the snapshot, in order. */
  method List(db: Database, uid: string, limit: Option<nat>) returns (ids: seq<string>, r: Result<seq<NotificationView>>)
    ensures var n := limit.GetOr(DefaultLimit);
            var mine := Addressed(db.notifications, uid);
            Distinct(ids) && |ids| == (if n < |mine| then n else |mine|) &&
            (forall i :: 0 <= i < |ids| ==> ids[i] in mine) &&
            // Newest first, and no notification left out is newer than one listed.
            (forall i, j :: 0 <= i < j < |ids| ==> db.notifications[ids[i]].created_at >= db.notifications[ids[j]].created_at) &&
            (forall x, i :: x in mine && x !in ids && 0 <= i < |ids| ==>
               db.notifications[x].created_at <= db.notifications[ids[i]].created_at)
    ensures forall i :: 0 <= i < |ids| ==> ids[i] in db.notifications
    ensures r == Views(db.notifications, ids)
  {
    var n := limit.GetOr(DefaultLimit);
    var ns := db.notifications;
    var mine := Addressed(ns, uid);
    var stamp := id => if id in ns then ns[id].created_at else 0;
    var order := NewestFirst(mine, stamp);
    var k := if n < |order| then n else |order|;
    NewestListed(ns, mine, order, k, stamp);
    ids := order[..k];
    r := Views(ns, ids);
  }

  datatype ReadReceipt = ReadReceipt(id: string, read_at: nat, message: string)

  /** `markAsRead(user, notificationId)`. */
  method MarkAsRead(db: Database, uid: string, id: string, now: nat) returns (r: Result<ReadReceipt>)
    modifies db
    // A missing notification and someone else's get the same answer.
    ensures r.Err? <==> id !in old(db.notifications) || old(db.notifications)[id].notifiable_id != uid
    ensures r.Err? ==> r == Err(NotFound) && unchanged(db)
    ensures r.Ok? ==> (r.value == ReadReceipt(id, now, "Notifikasi ditandai sudah dibaca") &&
              db.notifications == old(db.notifications)[id := old(db.notifications)[id].(read_at := Some(now), updated_at := now)])
    ensures unchanged(db`journals, db`users, db`resetTokens)
  {
    if id !in db.notifications {
      return Err(NotFound);
    }
    var data := db.notifications[id];
    if data.notifiable_id != uid {
      return Err(NotFound);
    }
    db.notifications := db.notifications[id := data.(read_at := Some(now), updated_at := now)];
    return Ok(ReadReceipt(id, now, "Notifikasi ditandai sudah dibaca"));
  }
}
