/**
 * The donor directory handlers: the filtered and paginated donor list, the
 * nearby-donor search, a donor's availability update and the registration
 * of a signed-in user as a donor.
 *
 * The `$near` geo queries are not computed here.  For the list, the database's
 * test "these coordinates lie within the query's radius of its point" is the
 * parameter `within`; for the nearby search, the database's answer is the
 * parameter `hits`, as in the emergency handlers.
 */
module DonorController {
  import opened Wrappers
  import opened Ids
  import opened Text
  import opened Js
  import opened Ordering
  import opened BloodGroups
  import D = DonorSchema
  import N = NotificationSchema
  import EC = EmergencyController
  import opened Store

  /** The query string of GET /donors (`page` and `limit` apart). */
  datatype DonorParams = DonorParams(
    bloodGroup: Option<string>,
    distance: Option<NumParam<real>>,
    lat: Option<NumParam<real>>,
    lng: Option<NumParam<real>>,
    available: Option<string>)

  /** A `$near` filter: the point `[lng, lat]` and `$maxDistance` in metres. */
  datatype GeoFilter = GeoFilter(lng: real, lat: real, maxMeters: real)

  /** The query object the handler builds. */
  datatype DonorQuery = DonorQuery(bloodGroup: Option<string>, isAvailable: Option<bool>, near: Option<GeoFilter>)

  /** The geo filter is wanted only when `lat`, `lng` and `distance` are all truthy. */
  predicate GeoWanted(p: DonorParams) {
    ParamGiven(p.lat) && ParamGiven(p.lng) && ParamGiven(p.distance)
  }

  /** The query of GET /donors, built field by field. */
  function BuildQuery(p: DonorParams): (q: DonorQuery)
    ensures q.bloodGroup.Some? <==> StrGiven(p.bloodGroup)
    ensures q.isAvailable.Some? <==> p.available.Some?
    ensures q.near.Some? <==> GeoWanted(p)
  {
    DonorQuery(
      bloodGroup := if StrGiven(p.bloodGroup) then p.bloodGroup else None,
      isAvailable := if p.available.Some? then Some(p.available.value == "true") else None,
      near := if GeoWanted(p) then Some(GeoFilter(p.lng.value.value, p.lat.value.value, p.distance.value.value * 1000.0))
              else None)
  }

  /** A donor satisfies the query; `within` is the database's radius test. */
  predicate Matches(q: DonorQuery, within: (GeoFilter, seq<real>) -> bool, d: D.Donor) {
    && (q.bloodGroup.Some? ==> Name(d.bloodGroup) == q.bloodGroup.value)
    && (q.isAvailable.Some? ==> d.isAvailable == q.isAvailable.value)
    && (q.near.Some? ==> within(q.near.value, d.coordinates))
  }

  /** What the built query asks of a donor: the blood group when one was
      given, availability equal to `available === 'true'` when `available`
      was present, and, when the three geo parameters were truthy, a distance
      within `distance` kilometres of `[lng, lat]`. */
  lemma QueryMeaning(p: DonorParams, within: (GeoFilter, seq<real>) -> bool, d: D.Donor)
    ensures Matches(BuildQuery(p), within, d) <==>
      && (StrGiven(p.bloodGroup) ==> Name(d.bloodGroup) == p.bloodGroup.value)
      && (p.available.Some? ==> (d.isAvailable <==> p.available.value == "true"))
      && (GeoWanted(p) ==>
            within(GeoFilter(p.lng.value.value, p.lat.value.value, p.distance.value.value * 1000.0), d.coordinates))
  {
  }

  /** `.sort({ isAvailable: -1, rating: -1 })` as one key: ratings lie in
      [0, 5], so an available donor always outranks an unavailable one. */
  function DonorKey(d: D.Donor): real {
    (if d.isAvailable then 6.0 else 0.0) + d.rating
  }

  /** The single key orders donors as the two-field sort does. */
  lemma DonorKeyOrder(a: D.Donor, b: D.Donor)
    requires 0.0 <= a.rating <= 5.0 && 0.0 <= b.rating <= 5.0
    ensures DonorKey(a) > DonorKey(b) <==>
      (a.isAvailable && !b.isAvailable) || (a.isAvailable == b.isAvailable && a.rating > b.rating)
  {
  }

  /** GET /donors over the donors in insertion order.  When the three geo
      parameters are truthy the query holds a `$near` filter, which MongoDB
      accepts in `find` but refuses in `countDocuments`, so the handler ends
      in its `catch` with 500.  Otherwise one page of the matches, sorted
      available first and then by rating, with the total and the page count. */
  function GetDonors(rows: seq<D.Donor>, p: DonorParams, within: (GeoFilter, seq<real>) -> bool, page: nat, limit: nat)
    : (r: Reply<Listing<D.Donor>>)
    requires page >= 1 && limit >= 1
    ensures r.Error? <==> GeoWanted(p)
    ensures r.Error? ==> r.code == ServerError
    ensures r.Ok? ==>
      && r.code == 200
      && |r.value.data| <= limit
      && (forall d :: d in r.value.data ==> d in rows && Matches(BuildQuery(p), within, d))
      && Descending(r.value.data, DonorKey)
      && r.value.total == Count(rows, d => Matches(BuildQuery(p), within, d))
      && r.value.pages == PageCount(r.value.total, limit)
  {
    if GeoWanted(p) then Error(ServerError, "Server error")
    else Ok(200, Query(rows, d => Matches(BuildQuery(p), within, d), DonorKey, page, limit))
  }

  /** Without the geo filter, the page is the `(page - 1) * limit` slice of
      the matching donors in sort order, and the radius test plays no part. */
  lemma GetDonorsPage(rows: seq<D.Donor>, p: DonorParams, within: (GeoFilter, seq<real>) -> bool, page: nat, limit: nat)
    requires page >= 1 && limit >= 1
    requires !GeoWanted(p)
    ensures var sorted := SortDesc(Filter(rows, d => Matches(BuildQuery(p), within, d)), DonorKey);
      GetDonors(rows, p, within, page, limit).value.data
        == sorted[Min(Skip(page, limit), |sorted|)..Min(Skip(page, limit) + limit, |sorted|)]
    ensures forall d :: Matches(BuildQuery(p), within, d) <==>
      (StrGiven(p.bloodGroup) ==> Name(d.bloodGroup) == p.bloodGroup.value)
      && (p.available.Some? ==> (d.isAvailable <==> p.available.value == "true"))
  {
  }

  /** The query string of GET /donors/nearby. */
  datatype NearbyParams = NearbyParams(lat: Option<NumParam<real>>, lng: Option<NumParam<real>>, radius: Option<NumParam<real>>)

  const DefaultRadiusKm: real := 10.0
  const NearbyLimit: nat := 20

  /** The search radius in kilometres: `radius`, 10 when it is absent. */
  function RadiusKm(p: NearbyParams): real {
    if p.radius.Some? then p.radius.value.value else DefaultRadiusKm
  }

  /** One entry of the answer: the donor and its distance in kilometres. */
  datatype NearbyDonor = NearbyDonor(donorId: Id, donor: D.Donor, distance: real)

  /** GET /donors/nearby: 400 unless `lat` and `lng` are both truthy;
      otherwise the available donors of the geo answer, nearest first, at most
      20.  `hits` is the answer for the radius `RadiusKm(p)`. */
  function GetNearbyDonors(donors: map<Id, D.Donor>, p: NearbyParams, hits: seq<EC.GeoHit>): (r: Reply<seq<NearbyDonor>>)
    requires forall i :: 0 <= i < |hits| ==> hits[i].donorId in donors
    ensures r.Error? <==> !ParamGiven(p.lat) || !ParamGiven(p.lng)
    ensures r.Error? ==> r.code == BadRequest
    ensures r.Ok? ==>
      && r.code == 200
      && |r.value| == |NearbyHits(donors, hits)|
      && forall i :: 0 <= i < |r.value| ==>
           && r.value[i].donorId == NearbyHits(donors, hits)[i].donorId
           && r.value[i].distance == NearbyHits(donors, hits)[i].distance
           && r.value[i].donorId in donors && r.value[i].donor == donors[r.value[i].donorId] && r.value[i].donor.isAvailable
    ensures r.Ok? && EC.NearQuery(hits, donors, RadiusKm(p)) ==>
      forall i :: 0 <= i < |r.value| ==> 0.0 <= r.value[i].distance <= RadiusKm(p)
  {
    if !ParamGiven(p.lat) || !ParamGiven(p.lng) then Error(BadRequest, "Latitude and longitude are required")
    else
      var kept := NearbyHits(donors, hits);
      assert EC.NearQuery(hits, donors, RadiusKm(p)) ==> EC.NearQuery(kept, donors, RadiusKm(p)) by {
        if EC.NearQuery(hits, donors, RadiusKm(p)) {
          NearbyWithinRadius(donors, hits, RadiusKm(p));
        }
      }
      Ok(200, seq(|kept|, i requires 0 <= i < |kept| => NearbyDonor(kept[i].donorId, donors[kept[i].donorId], kept[i].distance)))
  }

  /** The hits the `isAvailable: true` filter and `.limit(20)` keep. */
  function NearbyHits(donors: map<Id, D.Donor>, hits: seq<EC.GeoHit>): (kept: seq<EC.GeoHit>)
    requires forall i :: 0 <= i < |hits| ==> hits[i].donorId in donors
    ensures |kept| <= NearbyLimit
    ensures forall i :: 0 <= i < |kept| ==> kept[i].donorId in donors && donors[kept[i].donorId].isAvailable
  {
    Take(Filter(hits, (h: EC.GeoHit) => h.donorId in donors && donors[h.donorId].isAvailable), NearbyLimit)
  }

  /** The nearby donors are the first 20 available ones of the geo answer:
      every available donor of some prefix of the answer, and that prefix is
      the whole answer unless 20 were found. */
  lemma NearbyFirstAvailable(donors: map<Id, D.Donor>, hits: seq<EC.GeoHit>) returns (k: nat)
    requires forall i :: 0 <= i < |hits| ==> hits[i].donorId in donors
    ensures k <= |hits|
    ensures NearbyHits(donors, hits) == Filter(hits[..k], (h: EC.GeoHit) => h.donorId in donors && donors[h.donorId].isAvailable)
    ensures k < |hits| ==> |NearbyHits(donors, hits)| == NearbyLimit
  {
    k := TakeFilterPrefix(hits, (h: EC.GeoHit) => h.donorId in donors && donors[h.donorId].isAvailable, NearbyLimit);
  }

  /** On a well-behaved geo answer for the requested radius, the nearby
      donors are distinct, within the radius and nearest first. */
  lemma NearbyWithinRadius(donors: map<Id, D.Donor>, hits: seq<EC.GeoHit>, radiusKm: real)
    requires EC.NearQuery(hits, donors, radiusKm)
    ensures EC.NearQuery(NearbyHits(donors, hits), donors, radiusKm)
  {
    var rel := (a: EC.GeoHit, b: EC.GeoHit) => a.donorId != b.donorId && a.distance <= b.distance;
    var p := (h: EC.GeoHit) => h.donorId in donors && donors[h.donorId].isAvailable;
    FilterPairwise(hits, p, rel);
    TakePairwise(Filter(hits, p), NearbyLimit, rel);
    forall i | 0 <= i < |NearbyHits(donors, hits)|
      ensures NearbyHits(donors, hits)[i] in hits
    {
      FilterMember(hits, p, NearbyHits(donors, hits)[i]);
    }
  }

  /** A point as the client sends it. */
  datatype LatLng = LatLng(lat: real, lng: real)

  /** The body of PATCH /donors/:donorId/availability. */
  datatype AvailabilityBody = AvailabilityBody(isAvailable: Option<bool>, location: Option<LatLng>)

  /** The donor after `findByIdAndUpdate(donorId, updateData)`, where
      `updateData` is composed in the handler's two steps. */
  function AvailabilityUpdate(d: D.Donor, body: AvailabilityBody, now: int): (r: D.Donor)
    ensures r.isAvailable == body.isAvailable.GetOr(d.isAvailable)
    ensures r.coordinates == if body.location.Some? then [body.location.value.lng, body.location.value.lat] else d.coordinates
    ensures r.updatedAt == now
    ensures r.(isAvailable := d.isAvailable, coordinates := d.coordinates, updatedAt := d.updatedAt) == d
  {
    var point := if body.location.Some? then Some([body.location.value.lng, body.location.value.lat]) else None;
    var first := if body.isAvailable.Some? && body.isAvailable.value && body.location.Some? then point else None;
    var second := if body.location.Some? && body.isAvailable != Some(true) then point else first;
    d.(isAvailable := if body.isAvailable.Some? then body.isAvailable.value else d.isAvailable,
       coordinates := if second.Some? then second.value else d.coordinates,
       updatedAt := now)
  }

  /** The update keeps the donor schema's invariants. */
  lemma AvailabilityUpdateKeepsValid(d: D.Donor, body: AvailabilityBody, now: int)
    requires D.Valid(d)
    ensures D.Valid(AvailabilityUpdate(d, body, now))
  {
  }

  const AvailabilityTitle := "Availability Updated"

  function AvailabilityMessage(available: bool): string {
    "Your donor status has been updated to " + (if available then "Available" else "Unavailable")
  }

  function AvailabilityNote(userId: Id, available: bool, now: int): N.Notification {
    N.Notification(userId, N.System, AvailabilityTitle, AvailabilityMessage(available), false, N.Medium, None, now)
  }

  lemma AvailabilityTextsTrimmed(available: bool)
    ensures Trimmed(AvailabilityTitle) && Trimmed(AvailabilityMessage(available))
  {
  }

  /** The caller owns donor `donorId`. */
  predicate Owns(users: map<Id, User>, userId: Id, donorId: Id) {
    userId in users && users[userId].donorProfile == Some(donorId)
  }

  /**
   * PATCH /donors/:donorId/availability by user `userId`.  A missing user or
   * a profile other than `donorId` is 403; a user without a donor profile
   * throws on `donorProfile.toString()` (500); both come before the 404 for
   * a missing donor.  The notification is created only when `isAvailable`
   * was sent; 'donor-update' is broadcast on every success.
   */
  method UpdateAvailability(db: Database, userId: Id, donorId: Id, body: AvailabilityBody, now: int)
    returns (reply: Reply<D.Donor>)
    requires db.Valid()
    modifies db`donors, db`notifications, db`nextId, db`events
    ensures db.Valid()
    ensures var users := old(db.users);
      userId !in users || (users[userId].donorProfile.Some? && users[userId].donorProfile.value != donorId) ==>
        && reply.Error? && reply.code == Forbidden
        && db.donors == old(db.donors) && db.notifications == old(db.notifications) && db.events == old(db.events)
    ensures userId in old(db.users) && old(db.users)[userId].donorProfile.None? ==>
      && reply.Error? && reply.code == ServerError
      && db.donors == old(db.donors) && db.notifications == old(db.notifications) && db.events == old(db.events)
    ensures Owns(old(db.users), userId, donorId) && donorId !in old(db.donors) ==>
      && reply.Error? && reply.code == NotFound
      && db.donors == old(db.donors) && db.notifications == old(db.notifications) && db.events == old(db.events)
    ensures Owns(old(db.users), userId, donorId) && donorId in old(db.donors) ==>
      var d := AvailabilityUpdate(old(db.donors)[donorId], body, now);
      && reply == Ok(200, d)
      && db.donors == old(db.donors)[donorId := d]
      && db.events == old(db.events) + [Event(Everyone, "donor-update", donorId)]
      && (body.isAvailable.None? ==> db.notifications == old(db.notifications))
      && (body.isAvailable.Some? ==>
            db.notifications == old(db.notifications)[old(db.nextId) := AvailabilityNote(userId, body.isAvailable.value, now)])
  {
    if userId !in db.users {
      return Error(Forbidden, "Not authorized to update this donor profile");
    }
    var profile := db.users[userId].donorProfile;
    if profile.None? {
      return Error(ServerError, "Server error");
    }
    if profile.value != donorId {
      return Error(Forbidden, "Not authorized to update this donor profile");
    }
    if donorId !in db.donors {
      return Error(NotFound, "Donor not found");
    }
    var d := AvailabilityUpdate(db.donors[donorId], body, now);
    db.donors := db.donors[donorId := d];
    if body.isAvailable.Some? {
      AvailabilityTextsTrimmed(body.isAvailable.value);
      var sent := db.Notify(Some(userId), N.System, AvailabilityTitle, AvailabilityMessage(body.isAvailable.value), N.Medium, now);
    }
    db.Emit(Event(Everyone, "donor-update", donorId));
    return Ok(200, d);
  }

  const WelcomeTitle := "Donor Registration Complete"
  const WelcomeMessage := "Welcome to LifeLink donor network! " + "Your profile is now active."

  function WelcomeNote(userId: Id, now: int): N.Notification {
    N.Notification(userId, N.System, WelcomeTitle, WelcomeMessage, false, N.Medium, None, now)
  }

  lemma WelcomeTextsTrimmed()
    ensures Trimmed(WelcomeTitle) && Trimmed(WelcomeMessage)
  {
  }

  /** `Donor.create({ ...req.body, userId })`: the caller's id wins over a
      `userId` in the body. */
  function DonorData(body: D.DonorInput, userId: Id): (input: D.DonorInput)
    ensures input.userId == Some(userId)
    ensures input.(userId := body.userId) == body
  {
    body.(userId := Some(userId))
  }

  /** The new donor is stored: it validates and its e-mail is not in use. */
  predicate Registrable(donors: map<Id, D.Donor>, body: D.DonorInput, userId: Id, now: int) {
    var created := D.Create(DonorData(body, userId), now);
    created.Some? && !D.EmailTaken(donors, created.value.email)
  }

  /**
   * POST /donors/register by user `userId`.  A missing user throws (500); a
   * user who already has a donor profile gets 400; a donor that fails
   * validation or reuses an e-mail is 500.  Otherwise the donor is stored,
   * linked to the user, who becomes a donor, and welcomed.
   */
  method RegisterDonor(db: Database, userId: Id, body: D.DonorInput, now: int) returns (reply: Reply<D.Donor>)
    requires db.Valid()
    modifies db`donors, db`users, db`notifications, db`nextId
    ensures db.Valid()
    ensures userId !in old(db.users) ==>
      && reply.Error? && reply.code == ServerError
      && db.donors == old(db.donors) && db.users == old(db.users) && db.notifications == old(db.notifications)
    ensures userId in old(db.users) && old(db.users)[userId].donorProfile.Some? ==>
      && reply.Error? && reply.code == BadRequest
      && db.donors == old(db.donors) && db.users == old(db.users) && db.notifications == old(db.notifications)
    ensures userId in old(db.users) && old(db.users)[userId].donorProfile.None? && !Registrable(old(db.donors), body, userId, now) ==>
      && reply.Error? && reply.code == ServerError
      && db.donors == old(db.donors) && db.users == old(db.users) && db.notifications == old(db.notifications)
    ensures userId in old(db.users) && old(db.users)[userId].donorProfile.None? && Registrable(old(db.donors), body, userId, now) ==>
      var d := D.Create(DonorData(body, userId), now).value;
      var id := old(db.nextId);
      && reply == Ok(Created, d)
      && d.userId.None?
      && db.donors == old(db.donors)[id := d]
      && db.users == old(db.users)[userId := old(db.users)[userId].(donorProfile := Some(id), isDonor := true)]
      && db.notifications == old(db.notifications)[id + 1 := WelcomeNote(userId, now)]
  {
    if userId !in db.users {
      return Error(ServerError, "Server error");
    }
    if db.users[userId].donorProfile.Some? {
      return Error(BadRequest, "User already has a donor profile");
    }
    if !Registrable(db.donors, body, userId, now) {
      return Error(ServerError, "Server error");
    }
    var d := D.Create(DonorData(body, userId), now).value;
    LinkDonor(db, userId, d, now);
    return Ok(Created, d);
  }

  /** Stores donor `d`, links it to user `userId`, who becomes a donor, and
      sends the welcome notification. */
  method LinkDonor(db: Database, userId: Id, d: D.Donor, now: int)
    requires db.Valid() && userId in db.users && d.userId.None?
    modifies db`donors, db`users, db`notifications, db`nextId
    ensures db.Valid()
    ensures var id := old(db.nextId);
      && db.donors == old(db.donors)[id := d]
      && db.users == old(db.users)[userId := old(db.users)[userId].(donorProfile := Some(id), isDonor := true)]
      && db.notifications == old(db.notifications)[id + 1 := WelcomeNote(userId, now)]
  {
    var id := db.InsertDonor(d);
    db.users := db.users[userId := db.users[userId].(donorProfile := Some(id), isDonor := true)];
    WelcomeTextsTrimmed();
    var sent := db.Notify(Some(userId), N.System, WelcomeTitle, WelcomeMessage, N.Medium, now);
  }
}
