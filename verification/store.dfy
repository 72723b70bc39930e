/**
 * The database the handlers share: each Mongoose collection becomes a table
 * (a map from id to record) held by one `Database` object, ids come from one
 * counter (MongoDB ObjectIds are unique across collections), and the
 * Socket.IO emits are recorded as an event log.
 */
module Store {
  import opened Wrappers
  import opened Ids
  import opened EmergencySchema
  import opened DonorSchema
  import opened ReviewSchema
  import opened NotificationSchema
  import opened Text


  /** The part of a user account the handlers read and write. */
  datatype User = User(name: string, donorProfile: Option<Id>, isDonor: bool)

  /** Who receives a live-push event: every connected client, or the room `user-<id>`. */
  datatype Room = Everyone | UserRoom(userId: Id)

  /** A Socket.IO emit: room, event name and the id of the record it carries. */
  datatype Event = Event(room: Room, name: string, subject: Id)

  /** An HTTP reply: a success status with its payload, or an error status. */
  datatype Reply<T> = Ok(code: int, value: T) | Error(code: int, message: string)

  const Created := 201
  const BadRequest := 400
  const Forbidden := 403
  const NotFound := 404
  const ServerError := 500

  class Database {
    var users: map<Id, User>
    var donors: map<Id, Donor>
    var emergencies: map<Id, Emergency>
    var notifications: map<Id, Notification>
    var feedback: map<Id, Feedback>
    var events: seq<Event>
    var nextId: Id

    /** Every id in use was handed out by the counter, and no stored donor
        carries a `userId` (the donor schema does not declare one). */
    ghost predicate Valid()
      reads this
    {
      && (forall k :: k in users ==> k < nextId)
      && (forall k :: k in donors ==> k < nextId && donors[k].userId.None?)
      && (forall k :: k in emergencies ==> k < nextId)
      && (forall k :: k in notifications ==> k < nextId)
      && (forall k :: k in feedback ==> k < nextId)
    }

    constructor ()
      ensures Valid()
      ensures users == map[] && donors == map[] && emergencies == map[]
      ensures notifications == map[] && feedback == map[] && events == []
    {
      users, donors, emergencies, notifications, feedback := map[], map[], map[], map[], map[];
      events := [];
      nextId := 0;
    }

    /** Hands out `n` fresh ids, `old(nextId)` to `old(nextId) + n - 1`. */
    method ReserveIds(n: nat) returns (first: Id)
      requires Valid()
      modifies this`nextId
      ensures Valid()
      ensures first == old(nextId) && nextId == first + n
    {
      first := nextId;
      nextId := nextId + n;
    }

    /** `Notification.create(input)`: stores the validated record under a fresh
        id, or stores nothing when validation fails. */
    method CreateNotification(input: NotificationInput, now: int) returns (id: Option<Id>)
      requires Valid()
      modifies this`notifications, this`nextId
      ensures Valid()
      ensures id.Some? <==> NotificationSchema.Create(input, now).Some?
      ensures id.Some? ==>
                && id.value == old(nextId) && nextId == old(nextId) + 1
                && notifications == old(notifications)[id.value := NotificationSchema.Create(input, now).value]
      ensures id.None? ==> nextId == old(nextId) && notifications == old(notifications)
    {
      var n := NotificationSchema.Create(input, now);
      if n.None? {
        return None;
      }
      id := Some(nextId);
      notifications := notifications[nextId := n.value];
      nextId := nextId + 1;
    }

    /** `Notification.create` of a document the handlers compose with fixed,
        already-trimmed texts: it is stored, unread, exactly when it has a
        recipient; without one the validation error leaves the store as it was. */
    method Notify(userId: Option<Id>, kind: Kind, title: string, message: string, priority: Priority, now: int)
      returns (ok: bool)
      requires Valid()
      requires Trimmed(title) && Trimmed(message)
      modifies this`notifications, this`nextId
      ensures Valid()
      ensures ok <==> userId.Some?
      ensures ok ==>
                && nextId == old(nextId) + 1
                && notifications == old(notifications)[old(nextId) :=
                     Notification(userId.value, kind, title, message, false, priority, None, now)]
      ensures !ok ==> nextId == old(nextId) && notifications == old(notifications)
    {
      if userId.Some? {
        ComposeCreatedTrimmed(userId.value, kind, title, message, Some(priority), now);
      }
      var id := CreateNotification(Compose(userId, kind, title, message, Some(priority)), now);
      ok := id.Some?;
    }

    /** `Notification.create` of a composed document whose message embeds
        caller-supplied text: the schema's setter trims the message. */
    method NotifyTrimming(userId: Id, kind: Kind, title: string, message: string, priority: Priority, now: int)
      requires Valid()
      requires Trimmed(title) && Trim(message) != []
      modifies this`notifications, this`nextId
      ensures Valid()
      ensures nextId == old(nextId) + 1
      ensures notifications == old(notifications)[old(nextId) :=
                Notification(userId, kind, title, Trim(message), false, priority, None, now)]
    {
      TrimUnchanged(title);
      ComposeCreated(Some(userId), kind, title, message, Some(priority), now);
      var id := CreateNotification(Compose(Some(userId), kind, title, message, Some(priority)), now);
    }

    /** `Donor.findByIdAndUpdate(donorId, { isAvailable })`: a missing donor
        is left alone. */
    method SetAvailability(donorId: Id, available: bool)
      requires Valid()
      modifies this`donors
      ensures Valid()
      ensures donors == if donorId in old(donors)
                        then old(donors)[donorId := old(donors)[donorId].(isAvailable := available)]
                        else old(donors)
    {
      if donorId in donors {
        donors := donors[donorId := donors[donorId].(isAvailable := available)];
      }
    }

    /** `Donor.create` of a validated donor: stored under a fresh id. */
    method InsertDonor(d: Donor) returns (id: Id)
      requires Valid() && d.userId.None?
      modifies this`donors, this`nextId
      ensures Valid()
      ensures id == old(nextId) && nextId == id + 1
      ensures donors == old(donors)[id := d]
    {
      id := nextId;
      donors := donors[id := d];
      nextId := nextId + 1;
    }

    /** `Feedback.create` of a validated review: stored under a fresh id. */
    method InsertFeedback(f: Feedback) returns (id: Id)
      requires Valid()
      modifies this`feedback, this`nextId
      ensures Valid()
      ensures id == old(nextId) && nextId == id + 1
      ensures feedback == old(feedback)[id := f]
    {
      id := nextId;
      feedback := feedback[id := f];
      nextId := nextId + 1;
    }

    /** A Socket.IO emit. */
    method Emit(e: Event)
      modifies this`events
      ensures events == old(events) + [e]
    {
      events := events + [e];
    }
  }
}
