/**
 * The emergency handlers: raising a case and alerting nearby donors,
 * updating a case, a donor's answer to an invitation, and the case listings.
 *
 * The `$near` geo query is not computed here: the database's answer is a
 * parameter (`hits`, the donors it returned with their distances), and
 * `NearQuery` states what a well-behaved answer looks like.
 */
module EmergencyController {
  import opened Wrappers
  import opened Ids
  import opened Text
  import opened Js
  import opened Ordering
  import opened BloodGroups
  import opened EmergencySchema
  import D = DonorSchema
  import N = NotificationSchema
  import opened Store

  /** The body of a create request; every field may be missing. */
  datatype EmergencyBody = EmergencyBody(
    userId: Option<Id>,
    status: Option<string>,
    patientName: Option<string>,
    bloodGroup: Option<string>,
    emergencyType: Option<string>,
    location: Option<LocationInput>,
    address: Option<string>,
    description: Option<string>,
    isAmbulanceDispatched: Option<bool>,
    ambulanceDetails: Option<Ambulance>,
    createdAt: Option<int>,
    resolvedAt: Option<int>)

  /** The body spread into a document whose `userId` is the caller's and whose
      `status` is 'active', whatever the body said. */
  function EmergencyData(body: EmergencyBody, userId: Id): (d: EmergencyInput)
    ensures d.userId == Some(userId) && d.status == Some("active")
    ensures d.patientName == body.patientName && d.bloodGroup == body.bloodGroup
    ensures d.location == body.location && d.address == body.address
    ensures d.emergencyType == body.emergencyType && d.description == body.description
    ensures d.isAmbulanceDispatched == body.isAmbulanceDispatched && d.ambulanceDetails == body.ambulanceDetails
    ensures d.createdAt == body.createdAt && d.resolvedAt == body.resolvedAt
  {
    EmergencyInput(
      userId := Some(userId),
      patientName := body.patientName,
      bloodGroup := body.bloodGroup,
      emergencyType := body.emergencyType,
      location := body.location,
      address := body.address,
      description := body.description,
      status := Some("active"),
      isAmbulanceDispatched := body.isAmbulanceDispatched,
      ambulanceDetails := body.ambulanceDetails,
      createdAt := body.createdAt,
      resolvedAt := body.resolvedAt)
  }

  /** The handler's own check: patient name, blood group and location are truthy. */
  predicate HasRequiredFields(d: EmergencyInput) {
    StrGiven(d.patientName) && StrGiven(d.bloodGroup) && d.location.Some?
  }

  /** One donor returned by the geo query, with its distance in kilometres. */
  datatype GeoHit = GeoHit(donorId: Id, distance: real)

  const MatchRadiusKm: real := 20.0
  const MatchLimit: nat := 10

  /** What a `$near` query with `$maxDistance` answers: donors of the table,
      each once, within the radius, nearest first. */
  ghost predicate NearQuery(hits: seq<GeoHit>, donors: map<Id, D.Donor>, maxKm: real) {
    && Pairwise(hits, (a: GeoHit, b: GeoHit) => a.donorId != b.donorId && a.distance <= b.distance)
    && (forall i :: 0 <= i < |hits| ==> hits[i].donorId in donors && 0.0 <= hits[i].distance <= maxKm)
  }

  /** The non-geo part of the donor query: the blood group asked for, available. */
  predicate Eligible(donors: map<Id, D.Donor>, bg: BloodGroup, h: GeoHit) {
    h.donorId in donors && donors[h.donorId].bloodGroup == bg && donors[h.donorId].isAvailable
  }

  /** `Donor.find({ bloodGroup, isAvailable: true, location: $near }).limit(10)`. */
  function MatchDonors(donors: map<Id, D.Donor>, hits: seq<GeoHit>, bg: BloodGroup): (m: seq<GeoHit>)
    ensures |m| <= MatchLimit
    ensures forall i :: 0 <= i < |m| ==> Eligible(donors, bg, m[i])
  {
    Take(Filter(hits, h => Eligible(donors, bg, h)), MatchLimit)
  }

  /** Fewer than ten matches means every eligible donor the geo query returned was matched. */
  lemma MatchDonorsComplete(donors: map<Id, D.Donor>, hits: seq<GeoHit>, bg: BloodGroup, h: GeoHit)
    requires h in hits && Eligible(donors, bg, h)
    requires |MatchDonors(donors, hits, bg)| < MatchLimit
    ensures h in MatchDonors(donors, hits, bg)
  {
    FilterMember(hits, h => Eligible(donors, bg, h), h);
  }

  /** The matches are the first ten eligible donors of the geo answer: every
      eligible donor of some prefix of the answer, and that prefix is the
      whole answer unless ten were found. */
  lemma MatchDonorsFirst(donors: map<Id, D.Donor>, hits: seq<GeoHit>, bg: BloodGroup) returns (k: nat)
    ensures k <= |hits|
    ensures MatchDonors(donors, hits, bg) == Filter(hits[..k], h => Eligible(donors, bg, h))
    ensures k < |hits| ==> |MatchDonors(donors, hits, bg)| == MatchLimit
  {
    k := TakeFilterPrefix(hits, h => Eligible(donors, bg, h), MatchLimit);
  }

  /** On a well-behaved geo answer the matches are distinct donors, within
      20 km, nearest first. */
  lemma MatchDonorsNearestFirst(donors: map<Id, D.Donor>, hits: seq<GeoHit>, bg: BloodGroup)
    requires NearQuery(hits, donors, MatchRadiusKm)
    ensures NearQuery(MatchDonors(donors, hits, bg), donors, MatchRadiusKm)
  {
    var rel := (a: GeoHit, b: GeoHit) => a.donorId != b.donorId && a.distance <= b.distance;
    var p := h => Eligible(donors, bg, h);
    FilterPairwise(hits, p, rel);
    TakePairwise(Filter(hits, p), MatchLimit, rel);
    forall i | 0 <= i < |MatchDonors(donors, hits, bg)|
      ensures MatchDonors(donors, hits, bg)[i] in hits
    {
      FilterMember(hits, p, MatchDonors(donors, hits, bg)[i]);
    }
  }

  /** The responder entry for a matched donor, invited ('pending'). */
  function ResponderFor(d: D.Donor, h: GeoHit, id: Id): Responder {
    Responder(id, h.donorId, d.name, d.bloodGroup, d.phone, Invited, h.distance)
  }

  /** One responder per matched donor, in match order; sub-document ids from `firstId`. */
  function Responders(donors: map<Id, D.Donor>, matched: seq<GeoHit>, firstId: Id): (rs: seq<Responder>)
    requires forall i :: 0 <= i < |matched| ==> matched[i].donorId in donors
    ensures |rs| == |matched|
    ensures forall i :: 0 <= i < |rs| ==>
      && rs[i].donorId == matched[i].donorId
      && rs[i].status == Invited
      && rs[i].distance == matched[i].distance
      && rs[i].bloodGroup == donors[matched[i].donorId].bloodGroup
      && rs[i].name == donors[matched[i].donorId].name
      && rs[i].phone == donors[matched[i].donorId].phone
      && rs[i].id == firstId + i
  {
    seq(|matched|, i requires 0 <= i < |matched| => ResponderFor(donors[matched[i].donorId], matched[i], firstId + i))
  }

  /** Every responder of a new case is an available donor of the requested blood group. */
  lemma RespondersMatchRequest(donors: map<Id, D.Donor>, hits: seq<GeoHit>, bg: BloodGroup, firstId: Id)
    ensures var rs := Responders(donors, MatchDonors(donors, hits, bg), firstId);
      && |rs| <= MatchLimit
      && forall i :: 0 <= i < |rs| ==>
           rs[i].donorId in donors && rs[i].bloodGroup == bg && donors[rs[i].donorId].isAvailable
  {
  }

  const AlertTitle := "Emergency Blood Request"

  function AlertMessage(bg: BloodGroup): string {
    "Urgent need for " + Name(bg) + " blood near your location"
  }

  /** The alert a matched donor's account receives. */
  function AlertNote(userId: Id, bg: BloodGroup, now: int): N.Notification {
    N.Notification(userId, N.EmergencyAlert, AlertTitle, AlertMessage(bg), false, N.Critical, None, now)
  }

  lemma AlertTextsTrimmed(bg: BloodGroup)
    ensures Trimmed(AlertTitle) && Trimmed(AlertMessage(bg))
  {
  }

  const ActivatedTitle := "Emergency Activated"
  const ActivatedMessage := "Emergency mode activated. " + "Nearby hospitals and donors have been alerted."

  /** The confirmation the requester receives. */
  function ActivatedNote(userId: Id, now: int): N.Notification {
    N.Notification(userId, N.System, ActivatedTitle, ActivatedMessage, false, N.High, None, now)
  }

  lemma ActivatedTextsTrimmed()
    ensures Trimmed(ActivatedTitle) && Trimmed(ActivatedMessage)
  {
  }

  /** The position of the first matched donor without an account, or the
      number of matches when every one has an account. */
  function FirstUnlinked(donors: map<Id, D.Donor>, matched: seq<GeoHit>): (k: nat)
    requires forall i :: 0 <= i < |matched| ==> matched[i].donorId in donors
    ensures k <= |matched|
  {
    if matched == [] then 0
    else if donors[matched[0].donorId].userId.None? then 0
    else 1 + FirstUnlinked(donors, matched[1..])
  }

  /** Every matched donor before the first unlinked one has an account, and
      the one at that position, if any, has none. */
  lemma {:induction false} FirstUnlinkedSpec(donors: map<Id, D.Donor>, matched: seq<GeoHit>)
    requires forall i :: 0 <= i < |matched| ==> matched[i].donorId in donors
    ensures var k := FirstUnlinked(donors, matched);
      && (forall i :: 0 <= i < k ==> donors[matched[i].donorId].userId.Some?)
      && (k < |matched| ==> donors[matched[k].donorId].userId.None?)
  {
    if matched != [] && donors[matched[0].donorId].userId.Some? {
      FirstUnlinkedSpec(donors, matched[1..]);
    }
  }

  /** A linked donor at a position not past the first unlinked one is before it. */
  lemma LinkedBeforeFirstUnlinked(donors: map<Id, D.Donor>, matched: seq<GeoHit>, i: nat)
    requires forall j :: 0 <= j < |matched| ==> matched[j].donorId in donors
    requires i < |matched| && i <= FirstUnlinked(donors, matched)
    requires donors[matched[i].donorId].userId.Some?
    ensures i < FirstUnlinked(donors, matched)
  {
    FirstUnlinkedSpec(donors, matched);
  }

  /** The notification table after the alerts to the first `i` matched
      donors were stored, the `j`-th under id `base + j`. */
  function AlertedUpTo(notes: map<Id, N.Notification>, base: Id, donors: map<Id, D.Donor>, matched: seq<GeoHit>,
                       bg: BloodGroup, now: int, i: nat): map<Id, N.Notification>
    requires forall j :: 0 <= j < |matched| ==> matched[j].donorId in donors
    requires i <= FirstUnlinked(donors, matched)
  {
    if i == 0 then notes
    else AlertedUpTo(notes, base, donors, matched, bg, now, i - 1)[base + i - 1 := AlertNote(donors[matched[i - 1].donorId].userId.GetOr(0), bg, now)]
  }

  /** The notification table after the alert loop ran from id `base`: one
      alert per matched donor up to the first one without an account. */
  function Alerted(notes: map<Id, N.Notification>, base: Id, donors: map<Id, D.Donor>, matched: seq<GeoHit>,
                   bg: BloodGroup, now: int): map<Id, N.Notification>
    requires forall j :: 0 <= j < |matched| ==> matched[j].donorId in donors
  {
    AlertedUpTo(notes, base, donors, matched, bg, now, FirstUnlinked(donors, matched))
  }

  /** After `i` alerts the table holds the earlier records unchanged and, at
      id `base + j`, the critical alert addressed to the `j`-th matched
      donor's account; nothing else. */
  lemma {:induction false} AlertedUpToLookup(notes: map<Id, N.Notification>, base: Id, donors: map<Id, D.Donor>,
                                             matched: seq<GeoHit>, bg: BloodGroup, now: int, i: nat, key: Id)
    requires forall j :: 0 <= j < |matched| ==> matched[j].donorId in donors
    requires i <= FirstUnlinked(donors, matched)
    requires forall k :: k in notes ==> k < base
    ensures key in AlertedUpTo(notes, base, donors, matched, bg, now, i) <==> key in notes || base <= key < base + i
    ensures key in notes ==> AlertedUpTo(notes, base, donors, matched, bg, now, i)[key] == notes[key]
    ensures base <= key < base + i ==>
      var n := AlertedUpTo(notes, base, donors, matched, bg, now, i)[key];
      && Some(n.userId) == donors[matched[key - base].donorId].userId
      && n == AlertNote(n.userId, bg, now)
  {
    FirstUnlinkedSpec(donors, matched);
    if i > 0 {
      AlertedUpToLookup(notes, base, donors, matched, bg, now, i - 1, key);
    }
  }

  /** One donor's alert, stored when the donor is linked to an account. */
  method SendAlert(db: Database, userId: Option<Id>, bg: BloodGroup, now: int) returns (sent: bool)
    requires db.Valid()
    modifies db`notifications, db`nextId
    ensures db.Valid()
    ensures sent <==> userId.Some?
    ensures sent ==> db.nextId == old(db.nextId) + 1
                     && db.notifications == old(db.notifications)[old(db.nextId) := AlertNote(userId.value, bg, now)]
    ensures !sent ==> db.nextId == old(db.nextId) && db.notifications == old(db.notifications)
  {
    AlertTextsTrimmed(bg);
    sent := db.Notify(userId, N.EmergencyAlert, AlertTitle, AlertMessage(bg), N.Critical, now);
  }

  /** The alert loop: one alert per matched donor, in order.  It stops at the
      first donor without an account, whose alert fails validation, with the
      earlier alerts already stored. */
  method AlertMatched(db: Database, donors: map<Id, D.Donor>, matched: seq<GeoHit>, bg: BloodGroup, now: int,
                      ghost notes0: map<Id, N.Notification>, ghost base: Id)
    returns (ok: bool)
    requires db.Valid() && db.notifications == notes0 && db.nextId == base
    requires forall i :: 0 <= i < |matched| ==> matched[i].donorId in donors
    modifies db`notifications, db`nextId
    ensures db.Valid()
    ensures var k := FirstUnlinked(donors, matched);
      && (ok <==> k == |matched|)
      && db.nextId == base + k
      && db.notifications == Alerted(notes0, base, donors, matched, bg, now)
  {
    ghost var k := FirstUnlinked(donors, matched);
    FirstUnlinkedSpec(donors, matched);
    var i := 0;
    while i < |matched|
      invariant 0 <= i <= |matched| && i <= k
      invariant db.Valid()
      invariant db.nextId == base + i
      invariant db.notifications == AlertedUpTo(notes0, base, donors, matched, bg, now, i)
    {
      var donor := donors[matched[i].donorId];
      var sent := SendAlert(db, donor.userId, bg, now);
      if !sent {
        return false;
      }
      LinkedBeforeFirstUnlinked(donors, matched, i);
      i := i + 1;
    }
    return true;
  }

  /**
   * POST /emergencies.  On success the case is stored with one invited
   * responder per matched donor, each matched donor gets a critical alert,
   * the requester gets a confirmation, and 'new-emergency' is broadcast.
   * A matched donor without an account stops the handler with 500 after
   * the case and the earlier alerts were stored; since no stored donor has
   * one, every case with a match ends there, before any alert.
   */
  method CreateEmergency(db: Database, userId: Id, body: EmergencyBody, hits: seq<GeoHit>, now: int)
    returns (reply: Reply<Emergency>)
    requires db.Valid()
    requires forall i :: 0 <= i < |hits| ==> hits[i].donorId in db.donors
    modifies db
    ensures db.Valid()
    ensures db.users == old(db.users) && db.donors == old(db.donors) && db.feedback == old(db.feedback)
    ensures var d := EmergencyData(body, userId);
      !HasRequiredFields(d) ==> reply.Error? && reply.code == BadRequest
    ensures var d := EmergencyData(body, userId);
      HasRequiredFields(d) && Create(d, now).None? ==> reply.Error? && reply.code == ServerError
    ensures var d := EmergencyData(body, userId);
      !HasRequiredFields(d) || Create(d, now).None? ==>
        && db.emergencies == old(db.emergencies) && db.notifications == old(db.notifications)
        && db.events == old(db.events)
    ensures var d := EmergencyData(body, userId);
      HasRequiredFields(d) && Create(d, now).Some? ==>
        Opened(old(db.emergencies), old(db.notifications), old(db.events), old(db.nextId), old(db.donors),
               userId, Create(d, now).value, hits, now, db.emergencies, db.notifications, db.events, reply)
    ensures var d := EmergencyData(body, userId);
      HasRequiredFields(d) && Create(d, now).Some? && MatchDonors(old(db.donors), hits, Create(d, now).value.bloodGroup) != [] ==>
        && reply.Error? && reply.code == ServerError
        && db.notifications == old(db.notifications) && db.events == old(db.events)
  {
    var d := EmergencyData(body, userId);
    if !HasRequiredFields(d) {
      return Error(BadRequest, "Patient name, blood group, and location are required");
    }
    var created := Create(d, now);
    if created.None? {
      return Error(ServerError, "Server error");
    }
    ghost var emergencies0, notes0, events0, id := db.emergencies, db.notifications, db.events, db.nextId;
    reply := OpenCase(db, userId, created.value, hits, now);
    OpenedOutcome(emergencies0, notes0, events0, id, db.donors, userId, created.value, hits, now,
                  db.emergencies, db.notifications, db.events, reply);
  }

  /** What opening a validated case `c` leaves behind: the case stored with
      one invited responder per matched donor, an alert per matched donor up
      to the first one without an account, and, when every alert was stored,
      the requester's confirmation, the 'new-emergency' broadcast and 201. */
  ghost predicate Opened(emergencies0: map<Id, Emergency>, notes0: map<Id, N.Notification>, events0: seq<Event>,
                         id: Id, donors: map<Id, D.Donor>, userId: Id, c: Emergency, hits: seq<GeoHit>, now: int,
                         emergencies: map<Id, Emergency>, notes: map<Id, N.Notification>, events: seq<Event>,
                         reply: Reply<Emergency>)
    requires forall i :: 0 <= i < |hits| ==> hits[i].donorId in donors
  {
    var matched := MatchDonors(donors, hits, c.bloodGroup);
    var e := c.(responders := Responders(donors, matched, id + 1));
    var base := id + 1 + |matched|;
    var ok := FirstUnlinked(donors, matched) == |matched|;
    && emergencies == emergencies0[id := e]
    && Announced(notes0, events0, base, id, donors, matched, userId, c.bloodGroup, now, notes, events, ok)
    && (ok ==> reply == Ok(Created, e))
    && (!ok ==> reply.Error? && reply.code == ServerError)
  }

  /** `Emergency.create` followed by the donor query and the responder list:
      the case gets the next id, its responders the ids after it. */
  method StoreCase(db: Database, c: Emergency, hits: seq<GeoHit>) returns (id: Id, matched: seq<GeoHit>, e: Emergency)
    requires db.Valid()
    requires forall i :: 0 <= i < |hits| ==> hits[i].donorId in db.donors
    modifies db`nextId, db`emergencies
    ensures db.Valid()
    ensures id == old(db.nextId) && db.nextId == id + 1 + |matched|
    ensures matched == MatchDonors(old(db.donors), hits, c.bloodGroup)
    ensures e == c.(responders := Responders(old(db.donors), matched, id + 1))
    ensures db.emergencies == old(db.emergencies)[id := e]
  {
    id := db.ReserveIds(1);
    matched := MatchDonors(db.donors, hits, c.bloodGroup);
    var firstResponder := db.ReserveIds(|matched|);
    e := c.(responders := Responders(db.donors, matched, firstResponder));
    db.emergencies := db.emergencies[id := e];
  }

  /** The alert loop, then, when every alert was stored, the requester's
      confirmation and the 'new-emergency' broadcast for case `id`. */
  method Announce(db: Database, userId: Id, id: Id, donors: map<Id, D.Donor>, matched: seq<GeoHit>, bg: BloodGroup, now: int,
                  ghost notes0: map<Id, N.Notification>, ghost base: Id)
    returns (ok: bool)
    requires db.Valid() && db.notifications == notes0 && db.nextId == base
    requires forall i :: 0 <= i < |matched| ==> matched[i].donorId in donors
    modifies db`notifications, db`nextId, db`events
    ensures db.Valid()
    ensures Announced(notes0, old(db.events), base, id, donors, matched, userId, bg, now, db.notifications, db.events, ok)
  {
    ok := AlertMatched(db, donors, matched, bg, now, notes0, base);
    if ok {
      ActivatedTextsTrimmed();
      var confirmed := db.Notify(Some(userId), N.System, ActivatedTitle, ActivatedMessage, N.High, now);
      db.Emit(Event(Everyone, "new-emergency", id));
    }
  }

  /** What the alert loop and the confirmation leave behind. */
  ghost predicate Announced(notes0: map<Id, N.Notification>, events0: seq<Event>, base: Id, id: Id,
                            donors: map<Id, D.Donor>, matched: seq<GeoHit>, userId: Id, bg: BloodGroup, now: int,
                            notes: map<Id, N.Notification>, events: seq<Event>, ok: bool)
    requires forall i :: 0 <= i < |matched| ==> matched[i].donorId in donors
  {
    var k := FirstUnlinked(donors, matched);
    var alerted := Alerted(notes0, base, donors, matched, bg, now);
    && (ok <==> k == |matched|)
    && (!ok ==> notes == alerted && events == events0)
    && (ok ==> notes == alerted[base + k := ActivatedNote(userId, now)]
               && events == events0 + [Event(Everyone, "new-emergency", id)])
  }

  /** The part of POST /emergencies after validation. */
  method OpenCase(db: Database, userId: Id, c: Emergency, hits: seq<GeoHit>, now: int) returns (reply: Reply<Emergency>)
    requires db.Valid()
    requires forall i :: 0 <= i < |hits| ==> hits[i].donorId in db.donors
    modifies db`nextId, db`emergencies, db`notifications, db`events
    ensures db.Valid()
    ensures Opened(old(db.emergencies), old(db.notifications), old(db.events), old(db.nextId), old(db.donors),
                   userId, c, hits, now, db.emergencies, db.notifications, db.events, reply)
  {
    var donors := db.donors;
    ghost var emergencies0, notes0, events0 := db.emergencies, db.notifications, db.events;
    var id, matched, e := StoreCase(db, c, hits);
    var ok := Announce(db, userId, id, donors, matched, c.bloodGroup, now, notes0, id + 1 + |matched|);
    reply := if ok then Ok(Created, e) else Error(ServerError, "Server error");
    OpenedIntro(emergencies0, notes0, events0, id, donors, userId, c, hits, now,
                db.emergencies, db.notifications, db.events, reply, matched, e, ok);
  }

  lemma OpenedIntro(emergencies0: map<Id, Emergency>, notes0: map<Id, N.Notification>, events0: seq<Event>,
                    id: Id, donors: map<Id, D.Donor>, userId: Id, c: Emergency, hits: seq<GeoHit>, now: int,
                    emergencies: map<Id, Emergency>, notes: map<Id, N.Notification>, events: seq<Event>,
                    reply: Reply<Emergency>, matched: seq<GeoHit>, e: Emergency, ok: bool)
    requires forall i :: 0 <= i < |hits| ==> hits[i].donorId in donors
    requires matched == MatchDonors(donors, hits, c.bloodGroup)
    requires e == c.(responders := Responders(donors, matched, id + 1))
    requires emergencies == emergencies0[id := e]
    requires Announced(notes0, events0, id + 1 + |matched|, id, donors, matched, userId, c.bloodGroup, now, notes, events, ok)
    requires reply == if ok then Ok(Created, e) else Error(ServerError, "Server error")
    ensures Opened(emergencies0, notes0, events0, id, donors, userId, c, hits, now, emergencies, notes, events, reply)
  {
  }

  /** No stored donor has an account to alert: the donor schema drops
      `userId`.  So the alert loop fails at the first matched donor, and a
      case with any match ends in 500 with no alert, no confirmation and no
      broadcast; a case with no match is confirmed and answered 201. */
  lemma {:induction false} OpenedOutcome(emergencies0: map<Id, Emergency>, notes0: map<Id, N.Notification>, events0: seq<Event>,
                       id: Id, donors: map<Id, D.Donor>, userId: Id, c: Emergency, hits: seq<GeoHit>, now: int,
                       emergencies: map<Id, Emergency>, notes: map<Id, N.Notification>, events: seq<Event>,
                       reply: Reply<Emergency>)
    requires forall i :: 0 <= i < |hits| ==> hits[i].donorId in donors
    requires forall k :: k in donors ==> donors[k].userId.None?
    requires c.responders == []
    requires Opened(emergencies0, notes0, events0, id, donors, userId, c, hits, now, emergencies, notes, events, reply)
    ensures MatchDonors(donors, hits, c.bloodGroup) != [] ==>
      && reply.Error? && reply.code == ServerError
      && notes == notes0 && events == events0
    ensures MatchDonors(donors, hits, c.bloodGroup) == [] ==>
      && reply == Ok(Created, c) && emergencies == emergencies0[id := c]
      && notes == notes0[id + 1 := ActivatedNote(userId, now)]
      && events == events0 + [Event(Everyone, "new-emergency", id)]
  {
    var matched := MatchDonors(donors, hits, c.bloodGroup);
    if matched != [] {
      assert FirstUnlinked(donors, matched) == 0;
    } else {
      assert Responders(donors, matched, id + 1) == [];
      assert c.(responders := []) == c;
    }
  }

  /** The fields of an update request. */
  datatype EmergencyPatch = EmergencyPatch(
    status: Option<string>,
    ambulanceDetails: Option<Ambulance>,
    responderStatus: Option<string>,
    donorId: Option<Id>)

  /** The update document `findByIdAndUpdate` receives (`updatedAt` aside). */
  datatype UpdateData = UpdateData(
    status: Option<string>,
    resolvedAt: Option<int>,
    ambulanceDetails: Option<Ambulance>,
    isAmbulanceDispatched: Option<bool>)

  predicate Resolves(status: string) {
    status == "completed" || status == "cancelled"
  }

  /** The update document: a truthy status is written, and stamps `resolvedAt`
      when it closes the case; ambulance details mark the ambulance dispatched. */
  function ComposeUpdate(patch: EmergencyPatch, now: int): (u: UpdateData)
    ensures u.status.Some? <==> StrGiven(patch.status)
    ensures u.status.Some? ==> u.status == patch.status
    ensures u.resolvedAt.Some? <==> StrGiven(patch.status) && Resolves(patch.status.value)
    ensures u.resolvedAt.Some? ==> u.resolvedAt.value == now
    ensures u.ambulanceDetails == patch.ambulanceDetails
    ensures u.isAmbulanceDispatched.Some? <==> patch.ambulanceDetails.Some?
    ensures u.isAmbulanceDispatched != Some(false)
  {
    var given := StrGiven(patch.status);
    UpdateData(
      status := if given then patch.status else None,
      resolvedAt := if given && Resolves(patch.status.value) then Some(now) else None,
      ambulanceDetails := patch.ambulanceDetails,
      isAmbulanceDispatched := if patch.ambulanceDetails.Some? then Some(true) else None)
  }

  /** The update validators (`runValidators`): a written status is in the enumeration. */
  predicate UpdateValid(u: UpdateData) {
    u.status.None? || ParseStatus(u.status.value).Some?
  }

  /** `findByIdAndUpdate(id, u, { new: true })` on a found case: the fields the
      document sets change, every other field is kept. */
  function ApplyUpdate(e: Emergency, u: UpdateData): (r: Emergency)
    requires UpdateValid(u)
    ensures u.status.Some? ==> StatusName(r.status) == u.status.value
    ensures u.status.None? ==> r.status == e.status
    ensures r.resolvedAt == (if u.resolvedAt.Some? then u.resolvedAt else e.resolvedAt)
    ensures r.ambulanceDetails == (if u.ambulanceDetails.Some? then u.ambulanceDetails else e.ambulanceDetails)
    ensures r.isAmbulanceDispatched == u.isAmbulanceDispatched.GetOr(e.isAmbulanceDispatched)
    ensures r.(status := e.status, resolvedAt := e.resolvedAt, ambulanceDetails := e.ambulanceDetails,
               isAmbulanceDispatched := e.isAmbulanceDispatched) == e
  {
    e.(status := if u.status.Some? then ParseStatus(u.status.value).value else e.status,
       resolvedAt := if u.resolvedAt.Some? then u.resolvedAt else e.resolvedAt,
       ambulanceDetails := if u.ambulanceDetails.Some? then u.ambulanceDetails else e.ambulanceDetails,
       isAmbulanceDispatched := u.isAmbulanceDispatched.GetOr(e.isAmbulanceDispatched))
  }

  /** Closing a case that is already closed stamps `resolvedAt` again with the
      time of the new request: the first resolution time is not kept. */
  lemma ResolvedAtRestamped(e: Emergency, patch: EmergencyPatch, now: int)
    requires patch.status == Some("completed") || patch.status == Some("cancelled")
    ensures UpdateValid(ComposeUpdate(patch, now))
    ensures ApplyUpdate(e, ComposeUpdate(patch, now)).resolvedAt == Some(now)
  {
  }

  /** An update that does not close the case leaves `resolvedAt` alone. */
  lemma ResolvedAtKept(e: Emergency, patch: EmergencyPatch, now: int)
    requires UpdateValid(ComposeUpdate(patch, now))
    requires patch.status.None? || !Resolves(patch.status.value)
    ensures ApplyUpdate(e, ComposeUpdate(patch, now)).resolvedAt == e.resolvedAt
  {
  }

  /** `responders.id(subId).status = st; save()`: None when the responder is
      found and `st` is not a responder status (the save fails validation);
      the case unchanged when no responder has that sub-document id. */
  function PatchResponder(e: Emergency, subId: Id, st: string): (r: Option<Emergency>)
    ensures var j := FirstIndex(e.responders, (x: Responder) => x.id == subId);
      && (j.None? ==> r == Some(e))
      && (j.Some? ==> (r.Some? <==> ParseResponderStatus(st).Some?))
      && (j.Some? && r.Some? ==>
            && |r.value.responders| == |e.responders|
            && ResponderStatusName(r.value.responders[j.value].status) == st
            && (forall k :: 0 <= k < |e.responders| && k != j.value ==> r.value.responders[k] == e.responders[k])
            && r.value.(responders := e.responders) == e)
  {
    var j := FirstIndex(e.responders, (x: Responder) => x.id == subId);
    if j.None? then Some(e)
    else
      var status := ParseResponderStatus(st);
      if status.None? then None
      else Some(e.(responders := e.responders[j.value := e.responders[j.value].(status := status.value)]))
  }

  function StatusTitle(status: string): string { "Emergency " + status }
  function StatusMessage(status: string): string { "Your emergency has been marked as " + status }

  /** The notice the case's owner receives when the status is set. */
  function StatusNote(userId: Id, status: string, now: int): N.Notification {
    N.Notification(userId, N.System, StatusTitle(status), StatusMessage(status), false, N.High, None, now)
  }

  lemma StatusTextsTrimmed(status: string)
    requires ParseStatus(status).Some?
    ensures Trimmed(StatusTitle(status)) && Trimmed(StatusMessage(status))
  {
    var st := ParseStatus(status).value;
    assert status == StatusName(st);
  }

  /**
   * PUT /emergencies/:emergencyId.  A responder update (responder status and
   * donorId both given) is saved first, looked up by the responder's
   * sub-document id; a missing case there throws (500).  The case update is
   * validated before the case is looked up, so an invalid status is 500 even
   * for an unknown id.  A status change notifies the case's owner.
   */
  method UpdateEmergency(db: Database, emergencyId: Id, patch: EmergencyPatch, now: int)
    returns (reply: Reply<Emergency>)
    requires db.Valid()
    modifies db`emergencies, db`notifications, db`nextId
    ensures db.Valid()
    ensures var touch := StrGiven(patch.responderStatus) && patch.donorId.Some?;
      var u := ComposeUpdate(patch, now);
      var stepped :=
        if !touch then Some(old(db.emergencies))
        else if emergencyId !in old(db.emergencies) then None
        else
          var p := PatchResponder(old(db.emergencies)[emergencyId], patch.donorId.value, patch.responderStatus.value);
          if p.None? then None else Some(old(db.emergencies)[emergencyId := p.value]);
      && (stepped.None? ==>
            reply.Error? && reply.code == ServerError
            && db.emergencies == old(db.emergencies) && db.notifications == old(db.notifications))
      && (stepped.Some? && !UpdateValid(u) ==>
            reply.Error? && reply.code == ServerError
            && db.emergencies == stepped.value && db.notifications == old(db.notifications))
      && (stepped.Some? && UpdateValid(u) && emergencyId !in stepped.value ==>
            reply.Error? && reply.code == NotFound
            && db.emergencies == stepped.value && db.notifications == old(db.notifications))
      && (stepped.Some? && UpdateValid(u) && emergencyId in stepped.value ==>
            var updated := ApplyUpdate(stepped.value[emergencyId], u);
            && reply == Ok(200, updated)
            && db.emergencies == stepped.value[emergencyId := updated]
            && (u.status.None? ==> db.notifications == old(db.notifications))
            && (u.status.Some? ==>
                  db.notifications == old(db.notifications)[old(db.nextId) := StatusNote(updated.userId, u.status.value, now)]))
  {
    var u := ComposeUpdate(patch, now);
    if StrGiven(patch.responderStatus) && patch.donorId.Some? {
      if emergencyId !in db.emergencies {
        return Error(ServerError, "Server error");
      }
      var p := PatchResponder(db.emergencies[emergencyId], patch.donorId.value, patch.responderStatus.value);
      if p.None? {
        return Error(ServerError, "Server error");
      }
      db.emergencies := db.emergencies[emergencyId := p.value];
    }
    if !UpdateValid(u) {
      return Error(ServerError, "Server error");
    }
    if emergencyId !in db.emergencies {
      return Error(NotFound, "Emergency not found");
    }
    var updated := ApplyUpdate(db.emergencies[emergencyId], u);
    db.emergencies := db.emergencies[emergencyId := updated];
    if u.status.Some? {
      StatusTextsTrimmed(u.status.value);
      var sent := db.Notify(Some(updated.userId), N.System, StatusTitle(u.status.value), StatusMessage(u.status.value), N.High, now);
    }
    return Ok(200, updated);
  }

  /** GET /emergencies/:emergencyId (the `populate` joins aside). */
  function GetEmergency(emergencies: map<Id, Emergency>, emergencyId: Id): (r: Reply<Emergency>)
    ensures r.Ok? <==> emergencyId in emergencies
    ensures r.Ok? ==> r.value == emergencies[emergencyId] && r.code == 200
    ensures r.Error? ==> r.code == NotFound
  {
    if emergencyId in emergencies then Ok(200, emergencies[emergencyId])
    else Error(NotFound, "Emergency not found")
  }

  /** The answer a donor gives: 'accept', anything else counts as a refusal. */
  function ResponseStatus(action: string): (st: ResponderStatus)
    ensures st == Accepted <==> action == "accept"
    ensures st != Accepted ==> st == Rejected
  {
    if action == "accept" then Accepted else Rejected
  }

  /** The position of the donor's entry among the case's responders
      (`responders.find(r => r.donorId == donorId)`). */
  function ResponderOf(e: Emergency, donorId: Id): (j: Option<nat>)
    ensures j.Some? ==> j.value < |e.responders| && e.responders[j.value].donorId == donorId
    ensures j.None? ==> forall k :: 0 <= k < |e.responders| ==> e.responders[k].donorId != donorId
  {
    FirstIndex(e.responders, (r: Responder) => r.donorId == donorId)
  }

  /** Records the answer of responder `j`; nothing else in the case changes. */
  function RecordResponse(e: Emergency, j: nat, action: string): (r: Emergency)
    requires j < |e.responders|
    ensures |r.responders| == |e.responders|
    ensures r.responders[j] == e.responders[j].(status := ResponseStatus(action))
    ensures forall k :: 0 <= k < |e.responders| && k != j ==> r.responders[k] == e.responders[k]
    ensures r.(responders := e.responders) == e
  {
    e.(responders := e.responders[j := e.responders[j].(status := ResponseStatus(action))])
  }

  function AcceptedMessage(name: string): string {
    name + " has accepted your emergency request"
  }

  /** The notice the case's owner receives when a donor accepts: the
      template with the donor's name, trimmed by the schema. */
  function AcceptedNote(ownerId: Id, name: string, now: int): N.Notification {
    N.Notification(ownerId, N.DonorRequest, "Donor Responded", Trim(AcceptedMessage(name)), false, N.High, None, now)
  }

  lemma AcceptedTextsTrimmed(name: string)
    ensures Trimmed("Donor Responded") && Trim(AcceptedMessage(name)) != []
  {
    TrimNotEmpty(AcceptedMessage(name), |name| + 1);
  }

  /** An acceptance: the donor, when it exists, becomes unavailable, and the
      case's owner is notified. */
  method RecordAcceptance(db: Database, donorId: Id, ownerId: Id, name: string, now: int)
    requires db.Valid()
    modifies db`donors, db`notifications, db`nextId
    ensures db.Valid()
    ensures db.donors == if donorId in old(db.donors)
                         then old(db.donors)[donorId := old(db.donors)[donorId].(isAvailable := false)]
                         else old(db.donors)
    ensures db.notifications == old(db.notifications)[old(db.nextId) := AcceptedNote(ownerId, name, now)]
  {
    db.SetAvailability(donorId, false);
    AcceptedTextsTrimmed(name);
    db.NotifyTrimming(ownerId, N.DonorRequest, "Donor Responded", AcceptedMessage(name), N.High, now);
  }

  /**
   * POST /emergencies/:emergencyId/respond by a signed-in user.  The caller
   * must have a donor profile (400) and be among the case's responders (404).
   * The answer is recorded; an acceptance also makes the donor unavailable
   * (an update that bypasses the `updatedAt` hook) and notifies the case's owner.
   */
  method RespondToEmergency(db: Database, caller: User, emergencyId: Id, action: string, now: int)
    returns (reply: Reply<ResponderStatus>)
    requires db.Valid()
    modifies db
    ensures db.Valid()
    ensures db.users == old(db.users) && db.feedback == old(db.feedback) && db.events == old(db.events)
    ensures caller.donorProfile.None? ==>
      reply.Error? && reply.code == BadRequest && unchanged(db)
    ensures caller.donorProfile.Some? && emergencyId !in old(db.emergencies) ==>
      reply.Error? && reply.code == NotFound && unchanged(db)
    ensures caller.donorProfile.Some? && emergencyId in old(db.emergencies) ==>
      var donorId := caller.donorProfile.value;
      var e := old(db.emergencies)[emergencyId];
      var j := ResponderOf(e, donorId);
      && (j.None? ==> reply.Error? && reply.code == NotFound && unchanged(db))
      && (j.Some? ==>
            && reply == Ok(200, ResponseStatus(action))
            && db.emergencies == old(db.emergencies)[emergencyId := RecordResponse(e, j.value, action)]
            && (action != "accept" ==>
                  db.donors == old(db.donors) && db.notifications == old(db.notifications))
            && (action == "accept" ==>
                  && db.donors == (if donorId in old(db.donors)
                                   then old(db.donors)[donorId := old(db.donors)[donorId].(isAvailable := false)]
                                   else old(db.donors))
                  && db.notifications == old(db.notifications)[old(db.nextId) := AcceptedNote(e.userId, caller.name, now)]))
  {
    if caller.donorProfile.None? {
      return Error(BadRequest, "User is not registered as a donor");
    }
    var donorId := caller.donorProfile.value;
    if emergencyId !in db.emergencies {
      return Error(NotFound, "Emergency not found");
    }
    var e := db.emergencies[emergencyId];
    var j := ResponderOf(e, donorId);
    if j.None? {
      return Error(NotFound, "Not invited to respond to this emergency");
    }
    if action == "accept" {
      RecordAcceptance(db, donorId, e.userId, caller.name, now);
    }
    db.emergencies := db.emergencies[emergencyId := RecordResponse(e, j.value, action)];
    return Ok(200, ResponseStatus(action));
  }

  /** The case query: the caller's cases, and only those with the given
      status when a status filter is given. */
  predicate CaseMatches(userId: Id, status: Option<string>, e: Emergency) {
    e.userId == userId && (StrGiven(status) ==> StatusName(e.status) == status.value)
  }

  /** `.sort({ createdAt: -1 })`: newest first. */
  function Newest(e: Emergency): real {
    e.createdAt as real
  }

  /** GET /emergencies/my over the cases in insertion order: newest first,
      one page, with the total and the page count. */
  function UserEmergencies(rows: seq<Emergency>, userId: Id, status: Option<string>, page: nat, limit: nat)
    : (r: Listing<Emergency>)
    requires page >= 1 && limit >= 1
    ensures |r.data| <= limit
    ensures forall e :: e in r.data ==> e in rows && CaseMatches(userId, status, e)
    ensures Descending(r.data, Newest)
    ensures r.total == Count(rows, e => CaseMatches(userId, status, e))
    ensures r.pages == PageCount(r.total, limit)
  {
    Query(rows, e => CaseMatches(userId, status, e), Newest, page, limit)
  }

  /** The page is the `(page - 1) * limit` slice of the caller's cases sorted
      newest first: reading pages 1 to `pages` lists each case once. */
  lemma UserEmergenciesPage(rows: seq<Emergency>, userId: Id, status: Option<string>, page: nat, limit: nat)
    requires page >= 1 && limit >= 1
    ensures var sorted := SortDesc(Filter(rows, e => CaseMatches(userId, status, e)), Newest);
      UserEmergencies(rows, userId, status, page, limit).data
        == sorted[Min(Skip(page, limit), |sorted|)..Min(Skip(page, limit) + limit, |sorted|)]
  {
  }
}
