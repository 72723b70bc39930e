/**
 * The Emergency record of backend/models/emergency.js: the case, its embedded
 * responders, their enumerations and the defaults and `required` checks that
 * `Emergency.create` applies.
 */
module EmergencySchema {
  import opened Wrappers
  import opened Ids
  import opened BloodGroups


  datatype EmergencyType = Accident | Surgery | CriticalIllness | OtherType

  datatype CaseStatus = Pending | Active | Responded | Completed | Cancelled

  datatype ResponderStatus = Invited | Accepted | Rejected | OnWay | Arrived

  function EmergencyTypeName(t: EmergencyType): string {
    match t
    case Accident => "accident"
    case Surgery => "surgery"
    case CriticalIllness => "critical_illness"
    case OtherType => "other"
  }

  function ParseEmergencyType(s: string): (r: Option<EmergencyType>)
    ensures r.Some? ==> EmergencyTypeName(r.value) == s
    ensures r.Some? <==> s in {"accident", "surgery", "critical_illness", "other"}
  {
    if s == "accident" then Some(Accident)
    else if s == "surgery" then Some(Surgery)
    else if s == "critical_illness" then Some(CriticalIllness)
    else if s == "other" then Some(OtherType)
    else None
  }

  function StatusName(st: CaseStatus): string {
    match st
    case Pending => "pending"
    case Active => "active"
    case Responded => "responded"
    case Completed => "completed"
    case Cancelled => "cancelled"
  }

  /** The `enum` check of the case `status` path. */
  function ParseStatus(s: string): (r: Option<CaseStatus>)
    ensures r.Some? ==> StatusName(r.value) == s
    ensures r.Some? <==> s in {"pending", "active", "responded", "completed", "cancelled"}
  {
    if s == "pending" then Some(Pending)
    else if s == "active" then Some(Active)
    else if s == "responded" then Some(Responded)
    else if s == "completed" then Some(Completed)
    else if s == "cancelled" then Some(Cancelled)
    else None
  }

  function ResponderStatusName(st: ResponderStatus): string {
    match st
    case Invited => "pending"
    case Accepted => "accepted"
    case Rejected => "rejected"
    case OnWay => "on_way"
    case Arrived => "arrived"
  }

  /** The `enum` check of a responder's `status` path. */
  function ParseResponderStatus(s: string): (r: Option<ResponderStatus>)
    ensures r.Some? ==> ResponderStatusName(r.value) == s
    ensures r.Some? <==> s in {"pending", "accepted", "rejected", "on_way", "arrived"}
  {
    if s == "pending" then Some(Invited)
    else if s == "accepted" then Some(Accepted)
    else if s == "rejected" then Some(Rejected)
    else if s == "on_way" then Some(OnWay)
    else if s == "arrived" then Some(Arrived)
    else None
  }

  /** One embedded responder: `id` is the sub-document's own id, `donorId`
      the donor it stands for, `distance` the distance (km) at matching time. */
  datatype Responder = Responder(
    id: Id,
    donorId: Id,
    name: string,
    bloodGroup: BloodGroup,
    phone: string,
    status: ResponderStatus,
    distance: real)

  datatype Ambulance = Ambulance(
    driverName: Option<string>,
    phone: Option<string>,
    vehicleNumber: Option<string>,
    eta: Option<int>)

  /** A stored case; `coordinates` is the GeoJSON point, [longitude, latitude]. */
  datatype Emergency = Emergency(
    userId: Id,
    patientName: string,
    bloodGroup: BloodGroup,
    emergencyType: EmergencyType,
    coordinates: seq<real>,
    address: string,
    description: Option<string>,
    status: CaseStatus,
    responders: seq<Responder>,
    isAmbulanceDispatched: bool,
    ambulanceDetails: Option<Ambulance>,
    createdAt: int,
    resolvedAt: Option<int>)

  /** A GeoJSON point as a request supplies it: `type` and `coordinates`. */
  datatype LocationInput = LocationInput(kind: Option<string>, coordinates: Option<seq<real>>)

  /** The document handed to `Emergency.create`, with every declared path
      the model keeps. */
  datatype EmergencyInput = EmergencyInput(
    userId: Option<Id>,
    patientName: Option<string>,
    bloodGroup: Option<string>,
    emergencyType: Option<string>,
    location: Option<LocationInput>,
    address: Option<string>,
    description: Option<string>,
    status: Option<string>,
    isAmbulanceDispatched: Option<bool>,
    ambulanceDetails: Option<Ambulance>,
    createdAt: Option<int>,
    resolvedAt: Option<int>)

  /** A `required` string path: present and not the empty string. */
  predicate RequiredString(o: Option<string>) {
    o.Some? && o.value != []
  }

  /** An optional `enum` path: absent, or one of the listed values. */
  predicate OptionalEnum<E>(o: Option<string>, parse: string -> Option<E>) {
    o.None? || parse(o.value).Some?
  }

  /** The GeoJSON point validators: `type` is 'Point' (its default) and the
      `coordinates` array is required.  Mongoose's `required` on an array
      path passes an empty array, but a 'Point' without coordinates is
      refused all the same (by the 2dsphere index), so the case is not stored. */
  predicate LocationValid(o: Option<LocationInput>) {
    o.Some?
    && (o.value.kind.None? || o.value.kind.value == "Point")
    && o.value.coordinates.Some? && o.value.coordinates.value != []
  }

  /** Every validator of the schema passes on `input`. */
  predicate InputValid(input: EmergencyInput) {
    && input.userId.Some?
    && RequiredString(input.patientName)
    && input.bloodGroup.Some? && Parse(input.bloodGroup.value).Some?
    && OptionalEnum(input.emergencyType, ParseEmergencyType)
    && LocationValid(input.location)
    && RequiredString(input.address)
    && OptionalEnum(input.status, ParseStatus)
  }

  /** `Emergency.create(input)` at time `now`: the stored record with the
      schema's defaults where a path is absent, or None when it is refused. */
  function Create(input: EmergencyInput, now: int): (r: Option<Emergency>)
    ensures r.Some? <==> InputValid(input)
    ensures r.Some? ==>
      && Some(r.value.userId) == input.userId
      && Some(r.value.patientName) == input.patientName
      && Some(Name(r.value.bloodGroup)) == input.bloodGroup
      && Some(r.value.address) == input.address
      && Some(r.value.coordinates) == input.location.value.coordinates
      && r.value.description == input.description
      && r.value.status == (if input.status.None? then Pending else ParseStatus(input.status.value).value)
      && r.value.emergencyType == (if input.emergencyType.None? then OtherType else ParseEmergencyType(input.emergencyType.value).value)
      && r.value.responders == []
      && r.value.isAmbulanceDispatched == input.isAmbulanceDispatched.GetOr(false)
      && r.value.ambulanceDetails == input.ambulanceDetails
      && r.value.createdAt == input.createdAt.GetOr(now)
      && r.value.resolvedAt == input.resolvedAt
  {
    if !InputValid(input) then None
    else
      Some(Emergency(
        userId := input.userId.value,
        patientName := input.patientName.value,
        bloodGroup := Parse(input.bloodGroup.value).value,
        emergencyType := if input.emergencyType.None? then OtherType else ParseEmergencyType(input.emergencyType.value).value,
        coordinates := input.location.value.coordinates.value,
        address := input.address.value,
        description := input.description,
        status := if input.status.None? then Pending else ParseStatus(input.status.value).value,
        responders := [],
        isAmbulanceDispatched := input.isAmbulanceDispatched.GetOr(false),
        ambulanceDetails := input.ambulanceDetails,
        createdAt := input.createdAt.GetOr(now),
        resolvedAt := input.resolvedAt))
  }

  /** A case without `address` is refused by the schema, whatever else it holds. */
  lemma AddressRequired(input: EmergencyInput, now: int)
    requires input.address.None? || input.address == Some("")
    ensures Create(input, now).None?
  {
  }
}
