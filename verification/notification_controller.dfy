/**
 * The notification handlers: the caller's listing with its unread count,
 * marking one or all notifications read, deleting one, and the
 * administrative create that pushes the new notification to its recipient.
 * Every handler but the create is scoped to the caller: a notification of
 * another user is treated as missing.
 */
module NotificationController {
  import opened Wrappers
  import opened Ids
  import opened Js
  import opened Ordering
  import opened NotificationSchema
  import opened Store

  /** The query string of GET /notifications (`page` and `limit` apart). */
  datatype NoteParams = NoteParams(unreadOnly: Option<string>, kind: Option<string>, priority: Option<string>)

  /** The filter handed to `Notification.find`: the owner always, the other
      fields only when the query string asks for them. */
  datatype NoteQuery = NoteQuery(userId: Id, isRead: Option<bool>, kind: Option<string>, priority: Option<string>)

  function BuildQuery(userId: Id, p: NoteParams): (q: NoteQuery)
    ensures q.userId == userId
    ensures q.isRead.Some? <==> p.unreadOnly == Some("true")
    ensures q.kind.Some? <==> StrGiven(p.kind)
    ensures q.priority.Some? <==> StrGiven(p.priority)
  {
    NoteQuery(
      userId := userId,
      isRead := if p.unreadOnly == Some("true") then Some(false) else None,
      kind := if StrGiven(p.kind) then p.kind else None,
      priority := if StrGiven(p.priority) then p.priority else None)
  }

  /** A stored notification satisfies the filter: every field present in the
      filter equals the stored one (the enumerations compared by name). */
  predicate NoteMatches(q: NoteQuery, n: Notification) {
    && n.userId == q.userId
    && (q.isRead.Some? ==> n.isRead == q.isRead.value)
    && (q.kind.Some? ==> KindName(n.kind) == q.kind.value)
    && (q.priority.Some? ==> PriorityName(n.priority) == q.priority.value)
  }

  /** What the query string selects: the caller's own notifications; only
      unread ones exactly when `unreadOnly` is the string 'true'; a given
      `type` or `priority` must match exactly. */
  lemma QueryMeaning(userId: Id, p: NoteParams, n: Notification)
    ensures NoteMatches(BuildQuery(userId, p), n) <==>
      && n.userId == userId
      && (p.unreadOnly == Some("true") ==> !n.isRead)
      && (StrGiven(p.kind) ==> KindName(n.kind) == p.kind.value)
      && (StrGiven(p.priority) ==> PriorityName(n.priority) == p.priority.value)
  {
  }

  /** The caller's unread notifications, whatever the query string says. */
  predicate UnreadFor(userId: Id, n: Notification) {
    n.userId == userId && !n.isRead
  }

  /** The answer of GET /notifications: one page and the caller's unread count. */
  datatype NotePage = NotePage(listing: Listing<Notification>, unreadCount: nat)

  /** GET /notifications over the notifications in insertion order. */
  function GetNotifications(rows: seq<Notification>, userId: Id, p: NoteParams, page: nat, limit: nat)
    : (r: NotePage)
    requires page >= 1 && limit >= 1
    ensures forall n :: n in r.listing.data ==> n in rows && n.userId == userId
    ensures forall n :: n in r.listing.data ==> NoteMatches(BuildQuery(userId, p), n)
    ensures |r.listing.data| <= limit
    ensures Descending(r.listing.data, (n: Notification) => n.createdAt as real)
    ensures r.listing.total == Count(rows, n => NoteMatches(BuildQuery(userId, p), n))
    ensures var sorted := SortDesc(Filter(rows, n => NoteMatches(BuildQuery(userId, p), n)), (n: Notification) => n.createdAt as real);
      r.listing.data == sorted[Min(Skip(page, limit), |sorted|)..Min(Skip(page, limit) + limit, |sorted|)]
    ensures r.listing.pages == PageCount(r.listing.total, limit)
    ensures r.unreadCount == Count(rows, n => UnreadFor(userId, n))
  {
    var q := BuildQuery(userId, p);
    NotePage(
      Query(rows, n => NoteMatches(q, n), (n: Notification) => n.createdAt as real, page, limit),
      Count(rows, n => UnreadFor(userId, n)))
  }

  /** Asking for unread notifications only never reports more matches than
      the unread count, which ignores the type, priority and page filters. */
  lemma UnreadOnlyWithinUnreadCount(rows: seq<Notification>, userId: Id, p: NoteParams, page: nat, limit: nat)
    requires page >= 1 && limit >= 1
    requires p.unreadOnly == Some("true")
    ensures GetNotifications(rows, userId, p, page, limit).listing.total
            <= GetNotifications(rows, userId, p, page, limit).unreadCount
  {
    var q := BuildQuery(userId, p);
    forall n | NoteMatches(q, n)
      ensures UnreadFor(userId, n)
    {
      QueryMeaning(userId, p, n);
    }
    CountWeaker(rows, n => NoteMatches(q, n), n => UnreadFor(userId, n));
  }

  /** The notification `id` exists and belongs to `userId`. */
  predicate Owned(notes: map<Id, Notification>, id: Id, userId: Id) {
    id in notes && notes[id].userId == userId
  }

  /** `findOneAndUpdate({ _id: id, userId }, { isRead: true })`. */
  function MarkedRead(notes: map<Id, Notification>, id: Id, userId: Id): (r: map<Id, Notification>)
    ensures r.Keys == notes.Keys
    ensures Owned(notes, id, userId) ==> r[id] == notes[id].(isRead := true)
    ensures forall k :: k in notes && (k != id || !Owned(notes, id, userId)) ==> r[k] == notes[k]
  {
    if Owned(notes, id, userId) then notes[id := notes[id].(isRead := true)] else notes
  }

  /** Marking a notification read a second time changes nothing. */
  lemma MarkedReadIdempotent(notes: map<Id, Notification>, id: Id, userId: Id)
    ensures MarkedRead(MarkedRead(notes, id, userId), id, userId) == MarkedRead(notes, id, userId)
  {
  }

  /** PUT /notifications/:id/read by `userId`: the updated notification, or
      404 when no notification with that id belongs to the caller. */
  method MarkAsRead(db: Database, id: Id, userId: Id) returns (reply: Reply<Notification>)
    requires db.Valid()
    modifies db`notifications
    ensures db.Valid()
    ensures db.notifications == MarkedRead(old(db.notifications), id, userId)
    ensures Owned(old(db.notifications), id, userId) <==> reply.Ok?
    ensures reply.Ok? ==> reply == Ok(200, db.notifications[id])
    ensures reply.Error? ==> reply.code == NotFound
  {
    if !Owned(db.notifications, id, userId) {
      return Error(NotFound, "Notification not found");
    }
    db.notifications := db.notifications[id := db.notifications[id].(isRead := true)];
    return Ok(200, db.notifications[id]);
  }

  /** The ids of the caller's unread notifications. */
  function UnreadOf(notes: map<Id, Notification>, userId: Id): (r: set<Id>)
    ensures forall k :: k in r <==> k in notes && UnreadFor(userId, notes[k])
  {
    set k | k in notes && UnreadFor(userId, notes[k])
  }

  /** `updateMany({ userId, isRead: false }, { isRead: true })`. */
  function AllRead(notes: map<Id, Notification>, userId: Id): (r: map<Id, Notification>)
    ensures r.Keys == notes.Keys
    ensures forall k :: k in notes && notes[k].userId == userId ==> r[k] == notes[k].(isRead := true)
    ensures forall k :: k in notes && notes[k].userId != userId ==> r[k] == notes[k]
  {
    map k | k in notes :: if notes[k].userId == userId then notes[k].(isRead := true) else notes[k]
  }

  /** After marking all read the caller has nothing unread, and a second
      pass modifies nothing. */
  lemma AllReadLeavesNoneUnread(notes: map<Id, Notification>, userId: Id)
    ensures UnreadOf(AllRead(notes, userId), userId) == {}
    ensures AllRead(AllRead(notes, userId), userId) == AllRead(notes, userId)
  {
  }

  /** Marking all read touches exactly the caller's unread notifications:
      the ones that change are those counted in `modifiedCount`. */
  lemma AllReadChangesUnreadOnly(notes: map<Id, Notification>, userId: Id, k: Id)
    requires k in notes
    ensures AllRead(notes, userId)[k] != notes[k] <==> k in UnreadOf(notes, userId)
  {
  }

  /** PUT /notifications/read-all by `userId`: every unread notification of
      the caller becomes read; `modifiedCount` is how many were unread. */
  method MarkAllAsRead(db: Database, userId: Id) returns (reply: Reply<nat>)
    requires db.Valid()
    modifies db`notifications
    ensures db.Valid()
    ensures db.notifications == AllRead(old(db.notifications), userId)
    ensures reply == Ok(200, |UnreadOf(old(db.notifications), userId)|)
  {
    var modifiedCount := |UnreadOf(db.notifications, userId)|;
    db.notifications := AllRead(db.notifications, userId);
    return Ok(200, modifiedCount);
  }

  /** DELETE /notifications/:id by `userId`: removes that notification when
      it belongs to the caller, else 404 and nothing is removed. */
  method DeleteNotification(db: Database, id: Id, userId: Id) returns (reply: Reply<Id>)
    requires db.Valid()
    modifies db`notifications
    ensures db.Valid()
    ensures Owned(old(db.notifications), id, userId) ==>
      db.notifications == old(db.notifications) - {id} && reply == Ok(200, id)
    ensures !Owned(old(db.notifications), id, userId) ==>
      db.notifications == old(db.notifications) && reply.Error? && reply.code == NotFound
  {
    if !Owned(db.notifications, id, userId) {
      return Error(NotFound, "Notification not found");
    }
    db.notifications := db.notifications - {id};
    return Ok(200, id);
  }

  /** A deletion removes one notification of the caller and no other. */
  lemma DeleteRemovesOnlyThat(notes: map<Id, Notification>, id: Id, k: Id)
    requires k in notes && k != id
    ensures k in notes - {id} && (notes - {id})[k] == notes[k]
    ensures id !in notes - {id}
  {
  }

  /** The body of POST /notifications (`data` and `actionUrl` apart). */
  datatype NoteBody = NoteBody(
    userId: Option<Id>,
    kind: Option<string>,
    title: Option<string>,
    message: Option<string>,
    priority: Option<string>)

  /** The document handed to `Notification.create`: unread, and of priority
      'medium' when the body gives a falsy one. */
  function RequestInput(body: NoteBody): (input: NotificationInput)
    ensures input.isRead == Some(false) && input.expiresAt.None?
    ensures input.priority == if StrGiven(body.priority) then body.priority else Some("medium")
    ensures input.userId == body.userId && input.kind == body.kind
    ensures input.title == body.title && input.message == body.message
  {
    NotificationInput(
      userId := body.userId,
      kind := body.kind,
      title := body.title,
      message := body.message,
      isRead := Some(false),
      priority := if StrGiven(body.priority) then body.priority else Some("medium"),
      expiresAt := None)
  }

  /** A created notification is unread, never expires, and has priority
      'medium' unless the body named one. */
  lemma RequestDefaults(body: NoteBody, now: int)
    requires Create(RequestInput(body), now).Some?
    ensures var n := Create(RequestInput(body), now).value;
      && !n.isRead && n.expiresAt.None?
      && (!StrGiven(body.priority) ==> n.priority == Medium)
      && (StrGiven(body.priority) ==> PriorityName(n.priority) == body.priority.value)
  {
  }

  /** POST /notifications: 500 when the schema refuses the document;
      otherwise the notification is stored under a fresh id, pushed to the
      recipient's room only, and returned with 201. */
  method CreateNotification(db: Database, body: NoteBody, now: int) returns (reply: Reply<Notification>)
    requires db.Valid()
    modifies db`notifications, db`nextId, db`events
    ensures db.Valid()
    ensures var created := Create(RequestInput(body), now);
      && (created.None? ==>
            && reply.Error? && reply.code == ServerError
            && db.notifications == old(db.notifications) && db.events == old(db.events))
      && (created.Some? ==>
            && db.notifications == old(db.notifications)[old(db.nextId) := created.value]
            && db.events == old(db.events) + [Event(UserRoom(created.value.userId), "new-notification", old(db.nextId))]
            && reply == Ok(Created, created.value))
  {
    var id := db.CreateNotification(RequestInput(body), now);
    if id.None? {
      return Error(ServerError, "Server error");
    }
    var n := Create(RequestInput(body), now).value;
    db.Emit(Event(UserRoom(n.userId), "new-notification", id.value));
    return Ok(Created, n);
  }
}
