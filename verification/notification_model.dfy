/**
 * The Notification record of backend/models/Notification.js: the kind and
 * priority enumerations, the `isRead` default, the trimmed required strings
 * and the TTL index on `expiresAt`.
 */
module NotificationSchema {
  import opened Wrappers
  import opened Ids
  import opened Text


  datatype Kind = EmergencyAlert | DonorRequest | AppointmentKind | System | Message | BloodRequest

  datatype Priority = Low | Medium | High | Critical

  function KindName(k: Kind): string {
    match k
    case EmergencyAlert => "emergency_alert"
    case DonorRequest => "donor_request"
    case AppointmentKind => "appointment"
    case System => "system"
    case Message => "message"
    case BloodRequest => "blood_request"
  }

  function ParseKind(s: string): (r: Option<Kind>)
    ensures r.Some? ==> KindName(r.value) == s
    ensures r.Some? <==> s in {"emergency_alert", "donor_request", "appointment", "system", "message", "blood_request"}
  {
    if s == "emergency_alert" then Some(EmergencyAlert)
    else if s == "donor_request" then Some(DonorRequest)
    else if s == "appointment" then Some(AppointmentKind)
    else if s == "system" then Some(System)
    else if s == "message" then Some(Message)
    else if s == "blood_request" then Some(BloodRequest)
    else None
  }

  function PriorityName(p: Priority): string {
    match p
    case Low => "low"
    case Medium => "medium"
    case High => "high"
    case Critical => "critical"
  }

  function ParsePriority(s: string): (r: Option<Priority>)
    ensures r.Some? ==> PriorityName(r.value) == s
    ensures r.Some? <==> s in {"low", "medium", "high", "critical"}
  {
    if s == "low" then Some(Low)
    else if s == "medium" then Some(Medium)
    else if s == "high" then Some(High)
    else if s == "critical" then Some(Critical)
    else None
  }

  /** A stored notification. */
  datatype Notification = Notification(
    userId: Id,
    kind: Kind,
    title: string,
    message: string,
    isRead: bool,
    priority: Priority,
    expiresAt: Option<int>,
    createdAt: int)

  /** The document handed to `Notification.create`. */
  datatype NotificationInput = NotificationInput(
    userId: Option<Id>,
    kind: Option<string>,
    title: Option<string>,
    message: Option<string>,
    isRead: Option<bool>,
    priority: Option<string>,
    expiresAt: Option<int>)

  /** The validators after the `trim` setters: `userId`, `type`, `title` and
      `message` required, `type` and `priority` in their enumerations. */
  predicate InputValid(input: NotificationInput) {
    && input.userId.Some?
    && input.kind.Some? && ParseKind(input.kind.value).Some?
    && input.title.Some? && Trim(input.title.value) != []
    && input.message.Some? && Trim(input.message.value) != []
    && (input.priority.None? || ParsePriority(input.priority.value).Some?)
  }

  /** `Notification.create(input)` at time `now`, or None for a ValidationError. */
  function Create(input: NotificationInput, now: int): (r: Option<Notification>)
    ensures r.Some? <==> InputValid(input)
    ensures r.Some? ==>
      && Some(r.value.userId) == input.userId
      && Some(KindName(r.value.kind)) == input.kind
      && r.value.title == Trim(input.title.value) && r.value.title != []
      && r.value.message == Trim(input.message.value) && r.value.message != []
      && r.value.isRead == input.isRead.GetOr(false)
      && r.value.priority == (if input.priority.None? then Medium else ParsePriority(input.priority.value).value)
      && r.value.expiresAt == input.expiresAt
      && r.value.createdAt == now
  {
    if !InputValid(input) then None
    else
      Some(Notification(
        userId := input.userId.value,
        kind := ParseKind(input.kind.value).value,
        title := Trim(input.title.value),
        message := Trim(input.message.value),
        isRead := input.isRead.GetOr(false),
        priority := if input.priority.None? then Medium else ParsePriority(input.priority.value).value,
        expiresAt := input.expiresAt,
        createdAt := now))
  }

  /** The document the handlers build for a fixed kind and priority. */
  function Compose(userId: Option<Id>, kind: Kind, title: string, message: string, priority: Option<Priority>): NotificationInput {
    NotificationInput(
      userId := userId,
      kind := Some(KindName(kind)),
      title := Some(title),
      message := Some(message),
      isRead := None,
      priority := if priority.None? then None else Some(PriorityName(priority.value)),
      expiresAt := None)
  }

  lemma ParseKindName(k: Kind)
    ensures ParseKind(KindName(k)) == Some(k)
  {
  }

  lemma ParsePriorityName(p: Priority)
    ensures ParsePriority(PriorityName(p)) == Some(p)
  {
  }

  /** A composed document whose texts are not blank validates exactly when it
      has a recipient, and is stored with its texts trimmed, unread. */
  lemma ComposeCreated(userId: Option<Id>, kind: Kind, title: string, message: string, priority: Option<Priority>, now: int)
    requires Trim(title) != [] && Trim(message) != []
    ensures Create(Compose(userId, kind, title, message, priority), now)
            == if userId.None? then None
               else Some(Notification(userId.value, kind, Trim(title), Trim(message), false, priority.GetOr(Medium), None, now))
  {
    ParseKindName(kind);
    if priority.Some? {
      ParsePriorityName(priority.value);
    }
  }

  /** A composed document with fixed texts that need no trimming is stored
      exactly as composed, unread, whenever it has a recipient. */
  lemma ComposeCreatedTrimmed(userId: Id, kind: Kind, title: string, message: string, priority: Option<Priority>, now: int)
    requires Trimmed(title) && Trimmed(message)
    ensures Create(Compose(Some(userId), kind, title, message, priority), now)
            == Some(Notification(userId, kind, title, message, false, priority.GetOr(Medium), None, now))
  {
    TrimUnchanged(title);
    TrimUnchanged(message);
    ComposeCreated(Some(userId), kind, title, message, priority, now);
  }

  /** The TTL index (`expireAfterSeconds: 0`): a notification is due for removal
      once its `expiresAt` is reached; one without `expiresAt` never is. */
  predicate Expired(n: Notification, now: int) {
    n.expiresAt.Some? && n.expiresAt.value <= now
  }

  /** One pass of the TTL monitor at time `now`. */
  function Sweep(m: map<Id, Notification>, now: int): (r: map<Id, Notification>)
    ensures forall k :: k in r <==> k in m && !Expired(m[k], now)
    ensures forall k :: k in r ==> r[k] == m[k]
  {
    map k | k in m && !Expired(m[k], now) :: m[k]
  }

  /** A notification without `expiresAt` survives every pass. */
  lemma NoExpiryNeverSwept(m: map<Id, Notification>, k: Id, now: int)
    requires k in m && m[k].expiresAt.None?
    ensures k in Sweep(m, now) && Sweep(m, now)[k] == m[k]
  {
  }
}
