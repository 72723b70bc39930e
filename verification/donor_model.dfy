/**
 * The Donor record of backend/models/Donor.js: required paths, the blood
 * group enumeration, the lower-cased e-mail, the rating bounds, the defaults
 * and the `pre('save')` hook that stamps `updatedAt`.
 */
module DonorSchema {
  import opened Wrappers
  import opened Ids
  import opened Text
  import opened BloodGroups
  import EmergencySchema


  /** A stored donor.  `userId` is what `donor.userId` reads on a stored
      document: the schema declares no such path, so strict mode drops it on
      `create` and it always reads as absent. */
  datatype Donor = Donor(
    name: string,
    email: string,
    phone: string,
    bloodGroup: BloodGroup,
    coordinates: seq<real>,
    address: string,
    isAvailable: bool,
    rating: real,
    totalDonations: int,
    createdAt: int,
    updatedAt: int,
    userId: Option<Id>)

  /** The document handed to `Donor.create`. */
  datatype DonorInput = DonorInput(
    name: Option<string>,
    email: Option<string>,
    phone: Option<string>,
    bloodGroup: Option<string>,
    location: Option<EmergencySchema.LocationInput>,
    address: Option<string>,
    isAvailable: Option<bool>,
    rating: Option<real>,
    totalDonations: Option<int>,
    createdAt: Option<int>,
    userId: Option<Id>)

  /** The schema's invariants on a stored donor. */
  predicate Valid(d: Donor) {
    && d.name != [] && Trim(d.name) == d.name
    && d.email != [] && ToLower(d.email) == d.email
    && d.phone != []
    && d.coordinates != []
    && d.address != []
    && 0.0 <= d.rating <= 5.0
  }

  /** Every validator passes once the `trim` and `lowercase` setters have run. */
  predicate InputValid(input: DonorInput) {
    && input.name.Some? && Trim(input.name.value) != []
    && input.email.Some? && input.email.value != []
    && EmergencySchema.RequiredString(input.phone)
    && input.bloodGroup.Some? && Parse(input.bloodGroup.value).Some?
    && EmergencySchema.LocationValid(input.location)
    && EmergencySchema.RequiredString(input.address)
    && (input.rating.None? || 0.0 <= input.rating.value <= 5.0)
  }

  /** `Donor.create(input)` at time `now`: setters, defaults and the save hook
      applied, undeclared paths (`userId`) dropped, or None for a ValidationError. */
  function Create(input: DonorInput, now: int): (r: Option<Donor>)
    ensures r.Some? <==> InputValid(input)
    ensures r.Some? ==>
      && Valid(r.value)
      && r.value.name == Trim(input.name.value)
      && r.value.email == ToLower(input.email.value)
      && Some(Name(r.value.bloodGroup)) == input.bloodGroup
      && r.value.isAvailable == input.isAvailable.GetOr(true)
      && r.value.rating == input.rating.GetOr(0.0)
      && r.value.totalDonations == input.totalDonations.GetOr(0)
      && Some(r.value.phone) == input.phone
      && Some(r.value.address) == input.address
      && Some(r.value.coordinates) == input.location.value.coordinates
      && r.value.createdAt == input.createdAt.GetOr(now) && r.value.updatedAt == now
      && r.value.userId.None?
  {
    if !InputValid(input) then None
    else
      BlankIffTrimEmpty(input.name.value);
      TrimIdempotent(input.name.value);
      LowerIdempotent(input.email.value);
      var d := Donor(
        name := Trim(input.name.value),
        email := ToLower(input.email.value),
        phone := input.phone.value,
        bloodGroup := Parse(input.bloodGroup.value).value,
        coordinates := input.location.value.coordinates.value,
        address := input.address.value,
        isAvailable := input.isAvailable.GetOr(true),
        rating := input.rating.GetOr(0.0),
        totalDonations := input.totalDonations.GetOr(0),
        createdAt := input.createdAt.GetOr(now),
        updatedAt := now,
        userId := None);
      Some(PreSave(d, now))
  }

  lemma LowerIdempotent(s: string)
    ensures ToLower(ToLower(s)) == ToLower(s)
  {
  }

  /** The `pre('save')` hook: every save stamps `updatedAt` with the current
      time and leaves every other path as it was. */
  function PreSave(d: Donor, now: int): (r: Donor)
    ensures r.updatedAt == now
    ensures r == d.(updatedAt := r.updatedAt)
  {
    d.(updatedAt := now)
  }

  /** The hook keeps the schema invariants. */
  lemma PreSaveKeepsValid(d: Donor, now: int)
    requires Valid(d)
    ensures Valid(PreSave(d, now))
  {
  }

  /** The `unique` index on `email`: some stored donor already uses it. */
  predicate EmailTaken(donors: map<Id, Donor>, email: string) {
    exists k :: k in donors && donors[k].email == email
  }
}
