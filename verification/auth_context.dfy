/**
 * The client-side session state of frontend/src/context/AuthContext.js: the
 * signed-in user as a plain JavaScript object and the notification list,
 * with the updaters the provider hands to its consumers.  Each updater is a
 * function from the previous state to the next one.
 */
module AuthContext {
  import opened Js
  import opened Ordering

  /** One entry of the notification list. */
  datatype Note = Note(id: int, kind: string, title: string, message: string, read: bool, timestamp: string)

  predicate Unread(n: Note) {
    !n.read
  }

  /** `notifications.filter(n => !n.read).length`. */
  function UnreadCount(list: seq<Note>): (c: nat)
    ensures c <= |list|
  {
    Count(list, Unread)
  }

  /** The count grows by one for an unread head and is unchanged for a read one. */
  lemma UnreadCountCons(n: Note, list: seq<Note>)
    ensures UnreadCount([n] + list) == (if n.read then 0 else 1) + UnreadCount(list)
  {
    assert ([n] + list)[1..] == list;
  }

  /** The list the provider starts with. */
  function InitialNotifications(): seq<Note> {
    [ Note(1, "system", "Welcome to LifeLink", "Your account has been created successfully", false, "2023-11-20T10:00:00Z"),
      Note(2, "emergency", "Emergency Alert", "New emergency in your area", false, "2023-11-20T09:30:00Z"),
      Note(3, "donor", "Donor Request", "Blood needed for O+ patient", true, "2023-11-19T14:15:00Z") ]
  }

  /** The badge starts at two: the first two entries are unread, the third is read. */
  lemma InitialUnreadCount()
    ensures UnreadCount(InitialNotifications()) == 2
  {
    var list := InitialNotifications();
    UnreadCountCons(list[2], []);
    assert list[1..] == [list[1]] + [list[2]];
    UnreadCountCons(list[1], [list[2]]);
    assert list == [list[0]] + list[1..];
    UnreadCountCons(list[0], list[1..]);
  }

  /** No entry unread: the count is zero, and conversely. */
  lemma {:induction false} UnreadCountZero(list: seq<Note>)
    ensures UnreadCount(list) == 0 <==> forall i :: 0 <= i < |list| ==> list[i].read
  {
    if list != [] {
      UnreadCountZero(list[1..]);
      UnreadCountCons(list[0], list[1..]);
      assert list == [list[0]] + list[1..];
      if forall i :: 0 <= i < |list| ==> list[i].read {
        forall i | 0 <= i < |list[1..]|
          ensures list[1..][i].read
        {
          assert list[1..][i] == list[i + 1];
        }
      }
      if forall i :: 0 <= i < |list[1..]| ==> list[1..][i].read {
        if list[0].read {
          forall i | 0 <= i < |list|
            ensures list[i].read
          {
            if i > 0 {
              assert list[i] == list[1..][i - 1];
            }
          }
        }
      }
    }
  }

  function MarkOne(n: Note, id: int): Note {
    if n.id == id then n.(read := true) else n
  }

  /** `markNotificationAsRead(id)`: every entry with that id becomes read;
      the others, the length and the order stay as they were. */
  function MarkNotificationAsRead(list: seq<Note>, id: int): (r: seq<Note>)
    ensures |r| == |list|
    ensures forall i :: 0 <= i < |list| && list[i].id == id ==> r[i] == list[i].(read := true)
    ensures forall i :: 0 <= i < |list| && list[i].id != id ==> r[i] == list[i]
  {
    if list == [] then [] else [MarkOne(list[0], id)] + MarkNotificationAsRead(list[1..], id)
  }

  /** Marking one id read lowers the unread count by the number of unread
      entries carrying that id, and marking it again changes nothing. */
  lemma {:induction false} MarkReadUnread(list: seq<Note>, id: int)
    ensures UnreadCount(MarkNotificationAsRead(list, id)) + Count(list, n => Unread(n) && n.id == id)
            == UnreadCount(list)
    ensures MarkNotificationAsRead(MarkNotificationAsRead(list, id), id) == MarkNotificationAsRead(list, id)
  {
    if list != [] {
      MarkReadUnread(list[1..], id);
      var r := MarkNotificationAsRead(list, id);
      assert r == [MarkOne(list[0], id)] + MarkNotificationAsRead(list[1..], id);
      UnreadCountCons(MarkOne(list[0], id), MarkNotificationAsRead(list[1..], id));
      UnreadCountCons(list[0], list[1..]);
      assert list == [list[0]] + list[1..];
      assert r[1..] == MarkNotificationAsRead(list[1..], id);
    }
  }

  /** `markAllNotificationsAsRead()`: every entry read, nothing else changed. */
  function MarkAllNotificationsAsRead(list: seq<Note>): (r: seq<Note>)
    ensures |r| == |list|
    ensures forall i :: 0 <= i < |list| ==> r[i] == list[i].(read := true)
  {
    seq(|list|, i requires 0 <= i < |list| => list[i].(read := true))
  }

  /** After marking all read the unread count is zero; the badge of
      frontend/src/App.js uses the same two expressions. */
  lemma MarkAllClearsUnread(list: seq<Note>)
    ensures UnreadCount(MarkAllNotificationsAsRead(list)) == 0
    ensures MarkAllNotificationsAsRead(list) == [] <==> list == []
  {
    UnreadCountZero(MarkAllNotificationsAsRead(list));
  }

  /** `addNotification(n)` at time `now` (milliseconds, used as the id) with
      ISO stamp `stamp`: the entry goes first, unread, and its own `id`,
      `read` and `timestamp` are overridden. */
  function AddNotification(list: seq<Note>, n: Note, now: int, stamp: string): (r: seq<Note>)
    ensures |r| == |list| + 1
    ensures r[1..] == list
    ensures r[0].id == now && !r[0].read && r[0].timestamp == stamp
    ensures r[0].kind == n.kind && r[0].title == n.title && r[0].message == n.message
  {
    [n.(id := now, read := false, timestamp := stamp)] + list
  }

  /** Adding a notification adds one unread entry, whatever the entry said. */
  lemma AddNotificationUnread(list: seq<Note>, n: Note, now: int, stamp: string)
    ensures UnreadCount(AddNotification(list, n, now, stamp)) == UnreadCount(list) + 1
  {
    UnreadCountCons(n.(id := now, read := false, timestamp := stamp), list);
  }

  /** `updateUser(updates)`: `{ ...prev, ...updates }`. */
  function UpdateUser(prev: map<string, Value>, updates: map<string, Value>): (r: map<string, Value>)
    ensures r.Keys == prev.Keys + updates.Keys
    ensures forall k :: k in updates ==> r[k] == updates[k]
    ensures forall k :: k in prev && k !in updates ==> r[k] == prev[k]
  {
    Spread(prev, updates)
  }

  /** Applying the same update twice is applying it once. */
  lemma UpdateUserIdempotent(prev: map<string, Value>, updates: map<string, Value>)
    ensures UpdateUser(UpdateUser(prev, updates), updates) == UpdateUser(prev, updates)
  {
  }

  /** What `fetch` made of the PATCH request: a response with its `ok`
      flag, or a thrown network error. */
  datatype FetchOutcome = Responded(ok: bool) | Threw

  datatype AvailabilityResult = AvailabilityResult(user: map<string, Value>, success: bool)

  /** `updateDonorAvailability(available)`: on an ok response the user's
      `donorProfile` gets `available` and keeps its other properties; every
      other outcome leaves the user alone and reports failure. */
  function UpdateDonorAvailability(prev: map<string, Value>, available: bool, response: FetchOutcome)
    : (r: AvailabilityResult)
    ensures r.success <==> response == Responded(true)
    ensures !r.success ==> r.user == prev
    ensures r.success ==>
      && r.user.Keys == prev.Keys + {"donorProfile"}
      && (forall k :: k in prev && k != "donorProfile" ==> r.user[k] == prev[k])
      && r.user["donorProfile"].Obj?
      && r.user["donorProfile"].fields.Keys == OwnProperties(Get(prev, "donorProfile")).Keys + {"available"}
      && r.user["donorProfile"].fields["available"] == Bool(available)
      && (forall k :: k in OwnProperties(Get(prev, "donorProfile")) && k != "available" ==>
            r.user["donorProfile"].fields[k] == OwnProperties(Get(prev, "donorProfile"))[k])
  {
    if response == Responded(true) then
      var profile := Spread(OwnProperties(Get(prev, "donorProfile")), map["available" := Bool(available)]);
      AvailabilityResult(Spread(prev, map["donorProfile" := Obj(profile)]), true)
    else
      AvailabilityResult(prev, false)
  }
}
