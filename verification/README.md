# LifeLink core in Dafny

LifeLink is a hospital and emergency web application: an Express/Mongoose
backend where users raise emergencies, blood donors register and are matched
by blood group and distance, requesters review donors and every event leaves
a notification, plus React clients that hold the session, the feedback form
and the emergency countdown. This project models the decision logic of that
core: the Mongoose schemas (validators, defaults, setters), the controllers
that read and write the collections, the small in-memory and file-backed
stores, the role middleware, and the client-side state transitions. It proves
what each operation promises.

The layout follows the program's own files:

- `wrappers.dfy`, `text.dfy`, `js.dfy` and `ordering.dfy` hold the shared
  vocabulary:
  - `Option`;
  - `String.prototype.trim`, `toLowerCase` and `includes`;
  - JavaScript values, truthiness and object spread;
  - `filter`, a stable descending sort, `skip`/`limit` pagination, and the
    rows of a collection.
- `blood_group.dfy`, `emergency_model.dfy`, `donor_model.dfy`, `review_model.dfy`
  and `notification_model.dfy` model the Mongoose schemas.
- `store.dfy` holds the database as one class:
  - one map per collection;
  - one id counter that stands in for ObjectId generation;
  - the Socket.IO events emitted so far.
- The emergency, donor, feedback, notification and appointment controllers
  each have one module. Their state-changing handlers are methods on the
  database, and their reads are functions of the stored rows.
- `persistence_service.dfy` and `users_model.dfy` model the file store and
  the in-memory users array as classes.
- `role_middleware.dfy` and `accident_reporting.dfy` model the role gate and
  the accident list.
- `auth_context.dfy` and `app_frontend.dfy` model the client state. This
  includes the emergency button's countdown, as a class ticked once per
  interval.

## Model

| member | source | states |
|---|---|---|
| Text.TrimStart | backend/models/Donor.js:7 | removes exactly the leading white space `trim` strips (`IsSpace`): the result is a suffix that starts with a non-space, and everything cut is white space |
| Text.IsSpace | backend/models/Donor.js:7 | the characters `trim` strips: the ECMAScript white-space set (tab, vertical tab, form feed, space, U+00A0, U+FEFF, U+1680, U+2000 to U+200A, U+202F, U+205F, U+3000) and the line terminators (LF, CR, U+2028, U+2029) |
| Text.TrimEnd | backend/models/Donor.js:7 | removes exactly the trailing white space `trim` strips (`IsSpace`): the result is a prefix that ends with a non-space, and everything cut is white space |
| Text.Trim | backend/models/Donor.js:7 | the `trim` setter's result is the input with the leading and trailing white space (`IsSpace`) cut: it neither starts nor ends with white space and is no longer than the input |
| Text.BlankIffTrimEmpty | backend/models/Review.js:22-27 | a string trims to nothing iff it is all white space |
| Text.TrimIdempotent | backend/models/Review.js:22-27 | trimming twice is trimming once |
| Text.TrimUnchanged | backend/models/Notification.js:14-23 | a string that neither starts nor ends with white space is its own trim |
| Text.ToLower | backend/models/Donor.js:13 | `lowercase` keeps the length and maps every character through `LowerChar`, so capital letters of the covered ranges become small and every other character is kept |
| Text.Capital | backend/models/Donor.js:13 | the capital letters the model lowers: A to Z, the Latin-1 capitals U+00C0 to U+00DE except U+00D7, the Greek capitals U+0391 to U+03A9 except Σ (whose small form depends on its place in the word), and the Cyrillic capitals U+0400 to U+042F |
| Text.LowerChar | backend/models/Donor.js:13 | a character changes iff it is a covered capital; the result is never a capital, and lies 32 code points on (80 for U+0400 to U+040F) |
| Text.LowerCharIdempotent | backend/models/Donor.js:13 | lower-casing a character twice is lower-casing it once |
| Text.Utf16Length | backend/models/Review.js:26 | `maxlength` measures a string in UTF-16 code units: at least its number of characters and at most twice that |
| Text.Utf16LengthAppend | backend/models/Review.js:26 | the code-unit length of a concatenation is the sum of the lengths of its parts |
| Text.Utf16LengthUniform | backend/models/Review.js:26 | a string without astral characters has as many code units as characters; a string of astral characters only (each a surrogate pair) has twice as many |
| Text.ContainsIffOccurs | frontend-new/src/components/AccidentReporting.jsx:71 | `includes` holds iff the term occurs at some position |
| Text.Contains | frontend-new/src/components/AccidentReporting.jsx:71 | `includes`: the term occurs as a contiguous piece of the string |
| Text.ContainsEmpty | frontend-new/src/components/AccidentReporting.jsx:71 | every string includes the empty term |
| Text.DecimalString | backend/src/controllers/appointmentController.js:20 | `toString()` of a timestamp is at least one decimal digit, and only digits |
| Text.DecimalStringLength | backend/src/controllers/appointmentController.js:20 | a number of at least 10^k has more than `k` digits |
| Text.LastChars | backend/src/controllers/appointmentController.js:20 | `slice(-n)` is the last `n` characters, or the whole string when it is shorter |
| Js.Spread | backend/src/models/usersModel.js:13 | object spread has the keys of both objects, and the later object wins |
| Js.PlusOne | backend/src/models/usersModel.js:12 | `+ 1` adds one to a number and appends "1" to a string |
| Ordering.Filter | frontend-new/src/components/AccidentReporting.jsx:71 | `filter` keeps only elements that pass, never more than it was given |
| Ordering.FilterMember | frontend-new/src/components/AccidentReporting.jsx:71 | an element survives `filter` iff it was there and passes |
| Ordering.FilterCount | frontend-new/src/components/AccidentReporting.jsx:71 | `filter` keeps every occurrence of a passing element and none of a failing one |
| Ordering.FilterAll | frontend-new/src/components/AccidentReporting.jsx:71 | a filter every element passes changes nothing |
| Ordering.FirstIndex | backend/services/persistenceService.js:83 | `find` returns the first element that passes, or none when none passes |
| Ordering.CountWeaker | backend/controllers/notificationController.js:30-34 | a looser filter counts at least as many rows |
| Ordering.Take | backend/controllers/emergencyController.js:40 | `.limit(n)` keeps the first `n` rows, or all of them when there are fewer |
| Ordering.TakeFilterPrefix | backend/controllers/emergencyController.js:28-40 | `find(...).limit(n)` over a list is the filter of some prefix of it, and when that prefix stops short of the end the result is full (exactly `n` rows): nothing that passes is skipped before the limit is reached |
| Ordering.SortDesc | frontend-new/src/components/AccidentReporting.jsx:72-79 | a descending sort is a permutation of its input |
| Ordering.SortDescDescending | frontend-new/src/components/AccidentReporting.jsx:72-79 | after a descending sort, the keys do not increase along the list |
| Ordering.InsertTies | frontend-new/src/components/AccidentReporting.jsx:72-79 | inserting into a descending list places the new element after every element with an equal key |
| Ordering.SortDescStable | frontend-new/src/components/AccidentReporting.jsx:72-79 | the sort is stable: for every key value, the elements with that key come out in the order they went in |
| Ordering.SortDescConstantKey | frontend-new/src/components/AccidentReporting.jsx:78 | a comparator that calls every pair equal keeps the original order (the sort is stable) |
| Ordering.Page | backend/controllers/emergencyController.js:196-201 | `.skip((page - 1) * limit).limit(limit)` returns at most `limit` consecutive rows, starting at the skipped offset |
| Ordering.PageSlice | backend/controllers/emergencyController.js:196-201 | `skip((page - 1) * limit).limit(limit)` is the slice from `(page - 1) * limit` to `page * limit`, clipped to the list |
| Ordering.PageCount | backend/controllers/emergencyController.js:210 | `Math.ceil(total / limit)` is the fewest pages of `limit` rows that hold `total` rows |
| Ordering.PagesCoverAll | backend/controllers/emergencyController.js:196-210 | reading pages 1 to `pages` returns every matching row exactly once, in order |
| Ordering.Query | backend/controllers/emergencyController.js:196-210 | a `find` with a descending sort and `skip((page - 1) * limit).limit(limit)` returns exactly that slice of the sorted matches, so at most `limit` matching rows, sorted; `total` counts every match and `pages` = ceil(total / limit) |
| Ordering.Rows | backend/controllers/emergencyController.js:198 | a collection's rows are read in insertion order |
| Ordering.RowsMember | backend/controllers/emergencyController.js:198 | a row is read iff the collection holds it |
| BloodGroups.Parse | backend/models/emergency.js:13-17 | a blood group string is accepted iff it is one of the eight enumerated groups, and the accepted value spells back as the string |
| BloodGroups.ParseName | backend/models/Donor.js:19-23 | every stored blood group parses back to itself |
| EmergencySchema.ParseEmergencyType | backend/models/emergency.js:18-22 | `emergencyType` is accepted iff it is one of the four listed types |
| EmergencySchema.ParseStatus | backend/models/emergency.js:47-51 | a case status is accepted iff it is one of the five listed statuses |
| EmergencySchema.ParseResponderStatus | backend/models/emergency.js:60-64 | a responder status is accepted iff it is one of the five listed statuses |
| EmergencySchema.Create | backend/models/emergency.js:3-94 | `Emergency.create` succeeds iff every validator passes; the stored case keeps the given user, patient, blood group, address, coordinates and description, defaults status to 'pending' and type to 'other', has no responders, and stores the given `isAmbulanceDispatched` (default false), `ambulanceDetails`, `createdAt` (default now) and `resolvedAt` |
| EmergencySchema.AddressRequired | backend/models/emergency.js:34-37 | a case without an address (missing or empty) is refused |
| DonorSchema.Create | backend/models/Donor.js:3-87 | `Donor.create` succeeds iff every validator passes after the setters; the stored donor has a trimmed name and a lower-cased email, the given phone, address, coordinates and blood group, availability defaulting to true, rating to 0 and donations to 0, `createdAt` the given one or now, `updatedAt` = now, no `userId` (the schema does not declare it), and satisfies the schema invariants |
| DonorSchema.Valid | backend/models/Donor.js:3-87 | the schema's invariants on a stored donor: trimmed non-empty name, lower-cased non-empty e-mail, phone, coordinates and address present, rating between 0 and 5 |
| DonorSchema.InputValid | backend/models/Donor.js:3-87 | every validator passes once the `trim` and `lowercase` setters have run |
| DonorSchema.EmailTaken | backend/models/Donor.js:9-14 | the `unique` index on `email`: some stored donor already uses it |
| DonorSchema.LowerIdempotent | backend/models/Donor.js:9-14 | the `lowercase` setter applied to a stored email changes nothing |
| DonorSchema.PreSave | backend/models/Donor.js:84-87 | the save hook sets `updatedAt` to now and leaves every other path unchanged |
| DonorSchema.PreSaveKeepsValid | backend/models/Donor.js:84-87 | the save hook keeps every schema invariant of a valid donor |
| ReviewSchema.ParseTag | backend/models/Review.js:36-39 | a tag is accepted iff it is one of the seven listed tags, and reads back as itself |
| ReviewSchema.ParseTags | backend/models/Review.js:36-39 | a valid tag list maps element by element to tags that spell back as the input |
| ReviewSchema.TrimAll | backend/models/Review.js:28-35 | each element of `pros`/`cons` is stored trimmed, same length |
| ReviewSchema.TrimAllTrimmed | backend/models/Review.js:28-35 | the stored elements are fixed points of trimming |
| ReviewSchema.AstralCommentRefused | backend/models/Review.js:22-27 | a comment of 300 emoji, 300 characters but 600 code units, is refused by `maxlength: 500` |
| ReviewSchema.Create | backend/models/Review.js:3-60 | `Feedback.create` succeeds iff the rating is 1..5, the trimmed comment is non-empty and at most 500 UTF-16 code units (an astral character counts two), and every tag is listed; the stored review has a trimmed comment, each pro and con trimmed in place, the tags as sent, the given ids and flags, zero helpful and report counts, is unverified and has `createdAt` = now |
| NotificationSchema.ParseKind | backend/models/Notification.js:9-13 | `type` is accepted iff it is one of the six listed kinds |
| NotificationSchema.ParsePriority | backend/models/Notification.js:31-35 | `priority` is accepted iff it is one of the four listed priorities |
| NotificationSchema.ParseKindName | backend/models/Notification.js:9-13 | every kind parses back to itself |
| NotificationSchema.ParsePriorityName | backend/models/Notification.js:31-35 | every priority parses back to itself |
| NotificationSchema.Create | backend/models/Notification.js:3-46 | `Notification.create` succeeds iff the user, a listed type, and a non-blank title and message after trimming are present, and any priority is listed; the stored record has trimmed texts, is unread by default, has priority 'medium' by default and `createdAt` = now |
| NotificationSchema.ComposeCreated | backend/models/Notification.js:3-46 | a notification the handlers compose with non-blank texts is stored iff it has a recipient, trimmed and unread |
| NotificationSchema.ComposeCreatedTrimmed | backend/models/Notification.js:14-23 | a composed notification whose texts need no trimming is stored exactly as composed |
| NotificationSchema.Compose | backend/controllers/emergencyController.js:62-69 | the document the handlers build: recipient, the kind's name, title, message and an optional priority |
| NotificationSchema.Sweep | backend/models/Notification.js:52-53 | the TTL pass keeps exactly the notifications whose `expiresAt` has not been reached, unchanged |
| NotificationSchema.Expired | backend/models/Notification.js:52-53 | a notification is due for removal once its `expiresAt` is reached; one without `expiresAt` never is |
| NotificationSchema.NoExpiryNeverSwept | backend/models/Notification.js:39-41 | a notification without `expiresAt` survives every TTL pass |
| Store.Database.constructor | backend/server.js:17 | the `lifelink` database starts empty, every collection and the event log included |
| Store.Database.ReserveIds | backend/controllers/emergencyController.js:43-57 | hands out `n` fresh ids and nothing else changes |
| Store.Database.CreateNotification | backend/controllers/notificationController.js:147-156 | stores the record under a fresh id iff the schema accepts it, and leaves the table unchanged otherwise |
| Store.Database.Notify | backend/controllers/emergencyController.js:83-89 | a composed notice is stored (unread, under a fresh id) iff it has a recipient |
| Store.Database.NotifyTrimming | backend/controllers/emergencyController.js:296-302 | a notice whose message embeds user text is stored with that text trimmed under a fresh id |
| Store.Database.SetAvailability | backend/controllers/emergencyController.js:291-293 | sets `isAvailable` on the donor when it exists; a missing donor leaves the table unchanged |
| Store.Database.InsertDonor | backend/controllers/donorController.js:227 | stores a validated donor (which carries no `userId`) under a fresh id and nothing else changes |
| Store.Database.InsertFeedback | backend/controllers/feedbackController.js:46 | stores a validated review under a fresh id |
| Store.Database.Emit | backend/controllers/emergencyController.js:92-96 | a socket emit is appended to the event log |
| EmergencyController.EmergencyData | backend/controllers/emergencyController.js:9-14 | the request body spread with the caller's id and status 'active' overriding it; every other path of the body, `createdAt`, `resolvedAt` and the ambulance fields included, is passed on |
| EmergencyController.HasRequiredFields | backend/controllers/emergencyController.js:17-22 | the handler's own check: patient name and blood group are truthy and a location is given |
| EmergencyController.MatchDonors | backend/controllers/emergencyController.js:28-40 | at most ten matches, each an available donor of the requested blood group |
| EmergencyController.NearQuery | backend/controllers/emergencyController.js:28-40 | what a `$near` query with `$maxDistance` answers: stored donors, each once, within the radius, nearest first |
| EmergencyController.Eligible | backend/controllers/emergencyController.js:28-40 | the non-geo part of the donor query: the requested blood group and available |
| EmergencyController.MatchDonorsFirst | backend/controllers/emergencyController.js:28-40 | the matches are all eligible hits of some prefix of the geo answer, and when that prefix stops short of the end there are exactly ten: the ten nearest eligible donors are taken |
| EmergencyController.MatchDonorsComplete | backend/controllers/emergencyController.js:28-40 | with fewer than ten matches, every eligible donor the geo query returned is matched |
| EmergencyController.MatchDonorsNearestFirst | backend/controllers/emergencyController.js:31-39 | on a well-behaved `$near` answer, the matches are distinct donors within 20 km, nearest first |
| EmergencyController.Responders | backend/controllers/emergencyController.js:43-55 | one 'pending' responder per matched donor, in match order, carrying that donor's name, group, phone and distance |
| EmergencyController.RespondersMatchRequest | backend/controllers/emergencyController.js:43-55 | every responder of a new case is an available donor of the requested blood group |
| EmergencyController.AlertTextsTrimmed | backend/controllers/emergencyController.js:62-79 | the donor alert's title and message need no trimming |
| EmergencyController.ActivatedTextsTrimmed | backend/controllers/emergencyController.js:83-89 | the requester's confirmation texts need no trimming |
| EmergencyController.FirstUnlinked | backend/controllers/emergencyController.js:61-80 | the alert loop stops at a position within the matched list |
| EmergencyController.FirstUnlinkedSpec | backend/controllers/emergencyController.js:61-80 | every donor before the stop position has an account, and the donor at it has none |
| EmergencyController.LinkedBeforeFirstUnlinked | backend/controllers/emergencyController.js:61-80 | a linked donor not past the stop position is strictly before it |
| EmergencyController.AlertedUpToLookup | backend/controllers/emergencyController.js:61-80 | after `i` alerts the table holds the earlier records and one alert per id `base..base+i-1`, addressed to that donor's account |
| EmergencyController.SendAlert | backend/controllers/emergencyController.js:62-79 | one alert is stored iff the donor is linked to an account |
| EmergencyController.AlertMatched | backend/controllers/emergencyController.js:61-80 | the alert loop stores one alert per matched donor in order and stops with a failure at the first donor without an account, which with the stored donors is the first one |
| EmergencyController.CreateEmergency | backend/controllers/emergencyController.js:7-110 | 400 without a patient name, blood group or location; 500 when the schema refuses; otherwise the opened-case outcome, which is a 500 with no notice and no broadcast whenever some donor was matched |
| EmergencyController.StoreCase | backend/controllers/emergencyController.js:24-58 | the case is stored with one responder per matched donor, under fresh ids |
| EmergencyController.Announce | backend/controllers/emergencyController.js:61-96 | alerts, then the confirmation and the `new-emergency` broadcast only when every alert was stored |
| EmergencyController.OpenCase | backend/controllers/emergencyController.js:24-102 | the stored case (its responders from `MatchDonors`), the notifications and the events are as described, and the reply is 201 with the case or 500 |
| EmergencyController.OpenedIntro | backend/controllers/emergencyController.js:24-102 | the parts of opening a case compose into the whole outcome |
| EmergencyController.OpenedOutcome | backend/controllers/emergencyController.js:24-102 | with the stored donors, which never carry a `userId`, opening a case with at least one matched donor ends in 500 with no notification and no broadcast; with no match it answers 201, stores only the confirmation and broadcasts `new-emergency` |
| EmergencyController.ComposeUpdate | backend/controllers/emergencyController.js:119-131 | a truthy status is written and stamps `resolvedAt` iff it is 'completed' or 'cancelled'; ambulance details set the dispatched flag |
| EmergencyController.Resolves | backend/controllers/emergencyController.js:123 | a status closes the case iff it is 'completed' or 'cancelled' |
| EmergencyController.ApplyUpdate | backend/controllers/emergencyController.js:146-150 | the update overrides exactly the paths it carries |
| EmergencyController.ResolvedAtRestamped | backend/controllers/emergencyController.js:121-126 | closing an already closed case stamps `resolvedAt` again |
| EmergencyController.ResolvedAtKept | backend/controllers/emergencyController.js:121-126 | an update that does not close the case keeps `resolvedAt` |
| EmergencyController.PatchResponder | backend/controllers/emergencyController.js:133-142 | the responder with the given sub-document id gets the new status and nothing else changes; the case is unchanged when no responder has that id; a status outside the enumeration fails the save (None) |
| EmergencyController.StatusTextsTrimmed | backend/controllers/emergencyController.js:160-168 | the status notice's texts need no trimming for a listed status |
| EmergencyController.UpdateEmergency | backend/controllers/emergencyController.js:113-182 | validators run first (500), an unknown case is 404, otherwise the case is updated, the owner notified when a status was given, and 200 returned |
| EmergencyController.GetEmergency | backend/controllers/emergencyController.js:223-249 | 200 with the case iff it exists, 404 otherwise |
| EmergencyController.ResponseStatus | backend/controllers/emergencyController.js:287 | 'accept' gives 'accepted', anything else 'rejected' |
| EmergencyController.ResponderOf | backend/controllers/emergencyController.js:275-277 | the first responder entry for the donor, or None when the donor was not invited |
| EmergencyController.RecordResponse | backend/controllers/emergencyController.js:287 | only that responder's status changes |
| EmergencyController.AcceptedTextsTrimmed | backend/controllers/emergencyController.js:296-302 | the acceptance notice's title needs no trimming and its message is never blank |
| EmergencyController.RecordAcceptance | backend/controllers/emergencyController.js:290-303 | the donor becomes unavailable when it exists, and the owner receives the acceptance notice |
| EmergencyController.RespondToEmergency | backend/controllers/emergencyController.js:252-319 | 400 without a donor profile, 404 for an unknown case or an uninvited donor, otherwise the response is recorded (and an acceptance applied) and 200 returned |
| EmergencyController.UserEmergencies | backend/controllers/emergencyController.js:185-220 | only the caller's cases (of the given status), newest first, at most `limit`; `total` counts every match and `pages` = ceil(total / limit); equal sort keys come in insertion order |
| EmergencyController.UserEmergenciesPage | backend/controllers/emergencyController.js:196-201 | the listing is exactly the requested slice of the caller's matching cases, newest first; equal sort keys come in insertion order |
| DonorController.BuildQuery | backend/controllers/donorController.js:18-41 | the query filters on blood group iff one is given, on availability iff `available` is present, and by distance iff `lat`, `lng` and `distance` are all truthy |
| DonorController.QueryMeaning | backend/controllers/donorController.js:20-41 | a donor matches iff its group is the one given, its availability equals `available === 'true'`, and (when the geo filter applies) it lies within the requested distance |
| DonorController.DonorKeyOrder | backend/controllers/donorController.js:48 | the combined sort key orders available donors first, then by higher rating |
| DonorController.GetDonors | backend/controllers/donorController.js:6-67 | 500 iff `lat`, `lng` and `distance` are all given (`countDocuments` refuses the `$near` filter); otherwise only matching stored donors, at most `limit`, sorted by availability then rating; `total` counts every match and `pages` = ceil(total / limit); equal sort keys come in insertion order |
| DonorController.GetDonorsPage | backend/controllers/donorController.js:18-48 | outside the geo branch the listing is exactly the requested slice of the matching donors sorted by availability then rating, and a donor matches iff it has the given group and the given availability; equal sort keys come in insertion order |
| DonorController.GetNearbyDonors | backend/controllers/donorController.js:70-121 | 400 iff `lat` or `lng` is not truthy; otherwise one entry per `NearbyHits` hit, in order, with that stored, available donor and its distance, which lies within `RadiusKm` (default 10 km) on a well-behaved geo answer |
| DonorController.NearbyHits | backend/controllers/donorController.js:81-92 | at most 20 hits, each an available stored donor |
| DonorController.RadiusKm | backend/controllers/donorController.js:72 | the search radius is `radius` when given and 10 km otherwise |
| DonorController.NearbyFirstAvailable | backend/controllers/donorController.js:81-92 | the nearby donors are all available hits of some prefix of the geo answer, and when that prefix stops short of the end there are exactly twenty: the twenty nearest available donors are taken |
| DonorController.NearbyWithinRadius | backend/controllers/donorController.js:81-92 | on a well-behaved `$near` answer, the nearby donors are distinct, within the radius and nearest first |
| DonorController.AvailabilityUpdate | backend/controllers/donorController.js:139-166 | a present `isAvailable` is written, a given location replaces the coordinates as `[lng, lat]`, `updatedAt` is now, and nothing else changes |
| DonorController.AvailabilityUpdateKeepsValid | backend/controllers/donorController.js:162-166 | the update keeps the donor schema's invariants |
| DonorController.AvailabilityTextsTrimmed | backend/controllers/donorController.js:177-183 | the availability notice needs no trimming |
| DonorController.Owns | backend/controllers/donorController.js:131-132 | the caller exists and its `donorProfile` is the donor in the path |
| DonorController.UpdateAvailability | backend/controllers/donorController.js:124-205 | 403 when the user is missing or owns another profile, 500 when the user has no profile, 404 for an unknown donor, otherwise the donor is updated, notified iff `isAvailable` was sent, 'donor-update' broadcast and 200 returned |
| DonorController.WelcomeTextsTrimmed | backend/controllers/donorController.js:235-241 | the welcome notice needs no trimming |
| DonorController.DonorData | backend/controllers/donorController.js:222-225 | the body spread with the caller's id overriding any `userId` in it; every other path is passed on |
| DonorController.Registrable | backend/controllers/donorController.js:222-227 | the new donor is stored: it passes validation and its e-mail is not already used |
| DonorController.RegisterDonor | backend/controllers/donorController.js:208-255 | 500 for a missing user, 400 when the user already has a donor profile, 500 when the donor fails validation or reuses an e-mail; otherwise the donor is stored without `userId` (strict mode drops it), linked from the user, who becomes a donor, welcomed, and 201 returned |
| DonorController.LinkDonor | backend/controllers/donorController.js:227-241 | stores the donor, links it to the user and stores the welcome notice, under consecutive fresh ids |
| FeedbackController.ListOf | backend/controllers/feedbackController.js:38-39 | a missing or empty `pros`/`cons` gives `[]`, a single string a one-element list, an array itself |
| FeedbackController.FeedbackData | backend/controllers/feedbackController.js:34-44 | the stored document drops the user id iff the feedback is anonymous, carries rating and comment as sent, normalises pros and cons, defaults tags to `[]` and anonymity to false |
| FeedbackController.HasRequiredFields | backend/controllers/feedbackController.js:11-17 | the handler's own check: rating and comment are truthy |
| FeedbackController.Duplicate | backend/controllers/feedbackController.js:19-32 | a second feedback from the same user for the same emergency |
| FeedbackController.ReachesDonorNotice | backend/controllers/feedbackController.js:53-56 | the request reaches the donor notice: not anonymous, with a donor id of a stored donor |
| FeedbackController.AnonymousInvisible | backend/controllers/feedbackController.js:20-35 | storing an anonymous feedback never makes the duplicate check fire for anyone, in either direction |
| FeedbackController.UpdateDonorRating | backend/controllers/feedbackController.js:236-256 | the helper always ends in its own `catch` (it reads `mongoose`, which the file does not import) and changes nothing |
| FeedbackController.SubmitFeedback | backend/controllers/feedbackController.js:6-80 | 400 for a falsy rating or comment and for a second feedback on the same emergency, 500 when the schema refuses; otherwise the feedback is stored under a fresh id, and the reply is 201, or 500 when a named, existing donor was reviewed without anonymity (the notice there uses `Notification`, which the file does not import) |
| FeedbackController.RatingFilter | backend/controllers/feedbackController.js:109-113 | a rating filter exists iff `minRating` or `maxRating` is truthy |
| FeedbackController.RatingFilterMeaning | backend/controllers/feedbackController.js:109-113 | a rating passes iff it is at least every given minimum and at most every given maximum (both bounds inclusive) |
| FeedbackController.SumRatingsBounds | backend/controllers/feedbackController.js:128-135 | ratings between `lo` and `hi` sum to between `lo` and `hi` times their number |
| FeedbackController.Summarised | backend/controllers/feedbackController.js:127-135 | the rows the `$match` of the aggregate sees: all the matching feedback, and none at all when a donor or emergency id is filtered on (the aggregate does not cast the id strings) |
| FeedbackController.GetFeedback | backend/controllers/feedbackController.js:83-165 | exactly the requested page of the matching stored feedback in the requested order; `total` counts every match; `totalRatings` and `averageRating` are the count and mean of the `Summarised` rows, 0 when there are none, and 0 whenever a donor or emergency id is filtered on |
| FeedbackController.AverageBounds | backend/controllers/feedbackController.js:128-135 | the `$avg` of ratings between `lo` and `hi` lies between them |
| FeedbackController.AverageInRange | backend/controllers/feedbackController.js:109-135 | with both rating bounds given and at least one match, `averageRating` lies within them |
| FeedbackController.MarkHelpful | backend/controllers/feedbackController.js:168-197 | 404 for an unknown id; otherwise only that feedback's `helpfulCount` grows by one and the new count is returned |
| FeedbackController.ReportFeedback | backend/controllers/feedbackController.js:200-233 | 404 for an unknown id; otherwise only that feedback's `reportCount` grows by one (the `$push` to the undeclared `reportReasons` is dropped) and the new count is returned |
| FeedbackController.CountersKeepValid | backend/models/Review.js:44-51 | incrementing either counter keeps the review schema's invariants |
| NotificationController.BuildQuery | backend/controllers/notificationController.js:9-21 | the filter is always scoped to the caller; it asks for unread iff `unreadOnly` is exactly 'true', and filters on type and priority iff they are truthy |
| NotificationController.QueryMeaning | backend/controllers/notificationController.js:9-21 | a notification matches iff it is the caller's, unread when asked, and of the given type and priority |
| NotificationController.GetNotifications | backend/controllers/notificationController.js:4-52 | exactly the requested page of the caller's matching notifications, newest first; `total` counts every match, `pages` = ceil(total / limit), and `unreadCount` counts all the caller's unread notifications whatever the filters; equal sort keys come in insertion order |
| NotificationController.UnreadOnlyWithinUnreadCount | backend/controllers/notificationController.js:11-34 | with `unreadOnly=true`, `total` never exceeds `unreadCount` |
| NotificationController.MarkedRead | backend/controllers/notificationController.js:60-64 | exactly the caller's notification with that id becomes read; every other notification is unchanged |
| NotificationController.MarkedReadIdempotent | backend/controllers/notificationController.js:60-64 | marking a notification read twice is the same as once |
| NotificationController.MarkAsRead | backend/controllers/notificationController.js:55-85 | 200 with the updated notification iff it exists and belongs to the caller, 404 otherwise; the table changes as `MarkedRead` says |
| NotificationController.UnreadOf | backend/controllers/notificationController.js:92-95 | exactly the ids of the caller's unread notifications |
| NotificationController.AllRead | backend/controllers/notificationController.js:92-95 | every notification of the caller is read afterwards and everyone else's is unchanged |
| NotificationController.AllReadLeavesNoneUnread | backend/controllers/notificationController.js:92-95 | afterwards the caller has nothing unread, and a second pass changes nothing |
| NotificationController.AllReadChangesUnreadOnly | backend/controllers/notificationController.js:92-95 | a notification changes iff it was one of the caller's unread notifications |
| NotificationController.MarkAllAsRead | backend/controllers/notificationController.js:88-109 | marks the caller's notifications read and answers with the number that were unread (`modifiedCount`) |
| NotificationController.DeleteNotification | backend/controllers/notificationController.js:112-140 | removes the notification iff it belongs to the caller (200), 404 otherwise with nothing removed |
| NotificationController.DeleteRemovesOnlyThat | backend/controllers/notificationController.js:117-120 | a deletion leaves every other notification in place |
| NotificationController.RequestInput | backend/controllers/notificationController.js:147-156 | the document is unread, of priority 'medium' unless a truthy priority is given, and carries the body's user, type, title and message |
| NotificationController.RequestDefaults | backend/controllers/notificationController.js:147-156 | a created notification is unread and never expires |
| NotificationController.CreateNotification | backend/controllers/notificationController.js:143-173 | 500 when the schema refuses, otherwise the record is stored under a fresh id, 'new-notification' is emitted to the room `user-<userId>` and 201 returned |
| AuthContext.UnreadCount | frontend/src/context/AuthContext.js:78 | the badge counts the unread entries and never exceeds the list's length |
| AuthContext.InitialUnreadCount | frontend/src/context/AuthContext.js:23-27 | the provider's initial list has two unread entries |
| AuthContext.UnreadCountCons | frontend/src/context/AuthContext.js:78 | an unread head adds one to the count and a read head adds nothing |
| AuthContext.UnreadCountZero | frontend/src/context/AuthContext.js:78 | the count is zero iff every entry is read |
| AuthContext.MarkNotificationAsRead | frontend/src/context/AuthContext.js:54-60 | every entry with that id becomes read and every other entry is unchanged, in place |
| AuthContext.MarkReadUnread | frontend/src/context/AuthContext.js:54-60 | the unread count drops by exactly the number of unread entries with that id, and marking twice is marking once |
| AuthContext.MarkAllNotificationsAsRead | frontend/src/context/AuthContext.js:62-66 | every entry becomes read and nothing else changes |
| AuthContext.MarkAllClearsUnread | frontend/src/App.js:255-260 | after marking all read the unread count is zero, and the list is empty only if it was empty |
| AuthContext.AddNotification | frontend/src/context/AuthContext.js:68-73 | the new entry goes first with the current time as id, unread, stamped, carrying the given kind, title and message; the old list follows unchanged |
| AuthContext.AddNotificationUnread | frontend/src/context/AuthContext.js:68-73 | adding a notification raises the unread count by one, whatever the entry said about `read` |
| AuthContext.UpdateUser | frontend/src/context/AuthContext.js:29-31 | the user gains the updates' properties, which win; the other properties are kept |
| AuthContext.UpdateUserIdempotent | frontend/src/context/AuthContext.js:29-31 | applying the same update twice is applying it once |
| AuthContext.UpdateDonorAvailability | frontend/src/context/AuthContext.js:33-52 | success iff the response is ok; on failure or a thrown error the user is unchanged; on success only `donorProfile.available` is set, and every other property of the user and the profile is kept |
| AppFrontend.NormaliseEntries | frontend/src/App.js:200-207 | every entry sent is non-blank; a missing value gives `[]`, a single string its trimmed self when not blank, and an array exactly its non-blank entries (`Filter`), in their order and with their repeats |
| AppFrontend.NormaliseMany | frontend/src/App.js:202-203 | an array entry is sent iff it is in the array and not blank |
| AppFrontend.ArrayEntriesKeepSpaces | frontend/src/App.js:202-207 | array entries are sent untrimmed, while a single string is trimmed |
| AppFrontend.PaddedTrim | frontend/src/App.js:204 | trimming " a " gives "a" |
| AppFrontend.SubmitForm | frontend/src/App.js:435-455 | nothing is sent iff the rating is 0 or the comment is blank, and the form is then unchanged; otherwise the user's name, the rating, the trimmed comment and the normalised pros and cons are sent, and the fields are cleared only on success |
| AppFrontend.SentCommentTrimmed | frontend/src/App.js:443-448 | the comment sent is non-empty and needs no further trimming |
| AppFrontend.ClearedFormRefused | frontend/src/App.js:449-454 | after a successful submission the cleared form refuses a second submission |
| AppFrontend.RatingLabel | frontend/src/App.js:476-481 | ratings 0 to 5 get "Select rating", "Very Poor", "Poor", "Average", "Good" and "Excellent"; any other value gets "Excellent"; the label is "Select rating" iff the rating is 0 |
| AppFrontend.RatingLabelsDistinct | frontend/src/App.js:476-481 | the six ratings the stars produce get six different labels, and 5 is "Excellent" |
| AppFrontend.EmergencyButton.constructor | frontend/src/App.js:311-312 | the button starts hidden with a count of 5, no timers and no activations |
| AppFrontend.EmergencyButton.StartCountdown | frontend/src/App.js:314-329 | shows the confirmation, resets the count to 5 and starts one more timer |
| AppFrontend.EmergencyButton.Tick | frontend/src/App.js:318-328 | a count above 1 goes down by one; a count of 1 or less becomes 0, stops its timer, activates once and hides the confirmation |
| AppFrontend.EmergencyButton.ActivateNow | frontend/src/App.js:358-361 | hides the confirmation and activates at once; the running timers stay |
| AppFrontend.EmergencyButton.Cancel | frontend/src/App.js:331-334 | hides the confirmation without stopping any timer |
| AppFrontend.EmergencyButton.RunIntervals | frontend/src/App.js:318-328 | every running timer fires until it stops itself; each activates exactly once, and it takes one tick per timer plus one per count above 1 |
| AppFrontend.CountdownActivatesOnce | frontend/src/App.js:314-329 | left alone the countdown ticks five times and activates once |
| AppFrontend.CancelStillActivates | frontend/src/App.js:331-334 | cancelling does not stop the timer, which still activates |
| AppFrontend.ActivateNowActivatesTwice | frontend/src/App.js:358-361 | 'Activate Now' followed by the timer activates twice |
| AppFrontend.RestartAfterCancel | frontend/src/App.js:314-334 | starting again after a cancel leaves two timers, and both activate |
| AppointmentController.StatusFor | backend/src/controllers/appointmentController.js:36 | the new appointment is 'confirmed' iff payment is 'online', otherwise 'booked' |
| AppointmentController.AppointmentId | backend/src/controllers/appointmentController.js:20 | the id is 'AP' followed by one to eight decimal digits, and by exactly eight from 10^7 ms on |
| AppointmentController.SuffixDigits | backend/src/controllers/appointmentController.js:20 | the last `k` characters of a timestamp's decimal rendering are its last `k` digits |
| AppointmentController.PaddedDigitsPeriodic | backend/src/controllers/appointmentController.js:20 | the last `k` digits do not change when 10^k is added |
| AppointmentController.AppointmentIdDigits | backend/src/controllers/appointmentController.js:20 | from 10^7 ms on, the id is 'AP' and the timestamp's last eight digits |
| AppointmentController.AppointmentIdPeriodic | backend/src/controllers/appointmentController.js:20 | the generated id repeats every 10^8 ms (about 27.8 hours) |
| AppointmentController.DecimalStringLast | backend/src/controllers/appointmentController.js:20 | the last character of a decimal rendering is the last digit |
| AppointmentController.AppointmentIdLast | backend/src/controllers/appointmentController.js:20 | the id ends in the timestamp's last digit |
| AppointmentController.DigitInjective | backend/src/controllers/appointmentController.js:20 | different digits render as different characters |
| AppointmentController.NextLastDigit | backend/src/controllers/appointmentController.js:20 | consecutive numbers end in different digits |
| AppointmentController.AppointmentIdNext | backend/src/controllers/appointmentController.js:20 | ids generated one millisecond apart differ |
| AppointmentController.NewAppointment | backend/src/controllers/appointmentController.js:22-39 | validation passes iff every required path is present, the date is valid and the payment method is 'cash' or 'online'; the record then carries the id made from the handler's `Date.now()`, every field of the body (patient name, phone, e-mail, age and symptoms, department, doctor and specialization, date, time and fee), the parsed payment method, the status from the payment method, payment 'pending', and `bookedAt` from the schema default's own clock reading |
| AppointmentController.BodyValid | backend/src/models/Appointment.js:3-67 | the validators `save()` runs: the required strings non-empty, the date valid, the fee present and the payment method one of the two listed |
| AppointmentController.IdTaken | backend/src/models/Appointment.js:4-8 | a stored appointment already uses this `appointmentId` |
| AppointmentController.UniqueIds | backend/src/models/Appointment.js:4-8 | the unique index: no two stored appointments share an `appointmentId` |
| AppointmentController.InsertKeepsUnique | backend/src/models/Appointment.js:4-8 | storing an appointment whose id is not taken keeps `appointmentId` unique |
| AppointmentController.CheckSlotAvailability | backend/src/controllers/appointmentController.js:99-117 | 500 for an invalid date; otherwise `available` holds iff no stored appointment has the same doctor and time, a date within 24 h of the day asked, and a status other than 'cancelled' |
| AppointmentController.Conflicts | backend/src/controllers/appointmentController.js:103-111 | an appointment occupies the slot asked about: same doctor and time, a date within 24 h of the day asked, not cancelled |
| AppointmentController.CancelledFreesSlot | backend/src/controllers/appointmentController.js:103-111 | cancelling the only conflicting appointment makes the slot available |
| AppointmentController.GetAppointments | backend/src/controllers/appointmentController.js:46-58 | exactly the stored appointments with the given phone (all of them when none is given), as a permutation, latest `bookedAt` first |
| AppointmentController.GetAppointmentsMember | backend/src/controllers/appointmentController.js:48-53 | an appointment is listed iff it is stored and matches the phone |
| AppointmentController.AppointmentTable.constructor | backend/src/models/Appointment.js:70 | the collection starts empty |
| AppointmentController.AppointmentTable.CreateAppointment | backend/src/controllers/appointmentController.js:3-44 | with the handler's clock reading for the id and the schema default's for `bookedAt`: 400 when validation fails or the generated id is already stored (the duplicate-key error), otherwise the appointment is stored and 201 returned; the slot is not consulted and the unique index is kept |
| AppointmentController.AppointmentTable.UpdateAppointment | backend/src/controllers/appointmentController.js:72-84 | each status that is present is written and an absent one is left alone; an unknown id is 200 with no data |
| AppointmentController.AppointmentTable.CancelAppointment | backend/src/controllers/appointmentController.js:86-97 | the status becomes 'cancelled' and every modelled field is kept (the `updatedAt` stamp is not modelled); an unknown id is 200 with no data |
| AppointmentController.AppointmentTable.GetAppointmentById | backend/src/controllers/appointmentController.js:60-70 | 200 with the appointment iff it is stored, 404 otherwise |
| AppointmentController.DoubleBooking | backend/src/controllers/appointmentController.js:3-44 | two bookings of the same doctor, day and time a millisecond apart both succeed and both occupy the slot: creation never checks availability |
| PersistenceService.ReadPatients | backend/services/persistenceService.js:38-47 | the stored array when the file holds one, and `[]` for a missing, empty, unreadable or unparsable file |
| PersistenceService.AlwaysFileBranch | backend/services/persistenceService.js:3 | the Mongo branch is never taken, whatever the connection state, because `STORAGE_MODE` is imported as undefined |
| PersistenceService.Reversed | backend/services/persistenceService.js:94 | `reverse` keeps the length and puts the element at `i` at position `n - 1 - i` |
| PersistenceService.ReversedTwice | backend/services/persistenceService.js:94 | reversing twice gives the list back |
| PersistenceService.FindPatient | backend/services/persistenceService.js:83 | a patient is found iff some record has that `patientId`, and the one found is a stored record with it |
| PersistenceService.FindAfterAppend | backend/services/persistenceService.js:69-83 | a patient found once is still found, unchanged, after later saves (the first match wins) |
| PersistenceService.ReverseInPlace | backend/services/persistenceService.js:94 | the array is reversed in place |
| PersistenceService.PatientFile.constructor | backend/services/persistenceService.js:6 | the file starts in the given state |
| PersistenceService.PatientFile.WritePatients | backend/services/persistenceService.js:50-58 | on a successful write the file holds exactly the array; a failed write leaves it alone and is reported (thrown) |
| PersistenceService.PatientFile.SavePatient | backend/services/persistenceService.js:61-74 | the record is appended to what the file read as and the file rewritten, and the record returned; a failed write rejects and leaves the file alone |
| PersistenceService.PatientFile.GetPatientById | backend/services/persistenceService.js:77-85 | the first stored patient with that id, or none |
| PersistenceService.PatientFile.ListPatients | backend/services/persistenceService.js:88-96 | a new array holding the stored patients in reverse order |
| PersistenceService.SaveAppends | backend/services/persistenceService.js:61-74 | a save keeps every earlier record in place and in order, and adds the new one last |
| PersistenceService.SaveOverUnreadable | backend/services/persistenceService.js:38-47 | a save over an unreadable or unparsable file replaces its content with the one new record |
| UsersModel.NextId | backend/src/models/usersModel.js:12 | the generated id is 1 for an empty array, and otherwise the last element's numeric id plus one |
| UsersModel.StringIdConcatenates | backend/src/models/usersModel.js:12 | a last id that is a string gets "1" appended instead of being incremented |
| UsersModel.UserList.constructor | backend/src/models/usersModel.js:2-5 | the array starts with Alice (id 1) and Bob (id 2) |
| UsersModel.UserList.AddUser | backend/src/models/usersModel.js:11-16 | the new record is appended in place and returned; it has the argument's properties plus `id`, the argument's own `id` overriding the generated one |
| UsersModel.UserList.ListUsers | backend/src/models/usersModel.js:7-9 | hands out the live array itself |
| UsersModel.SequentialIds | backend/src/models/usersModel.js:12-14 | successive additions without an `id` number the users n + 1, n + 2 |
| UsersModel.LiveListing | backend/src/models/usersModel.js:7-16 | a listing taken before `addUser` sees the added third user, with id 3 |
| RoleMiddleware.AllowRoles | mern-exercise-tracker/backend/middleware/roleMiddleware.js:4-19 | exactly one outcome: 401 iff there is no user (checked first); `next()` iff the user's role is listed; 403 otherwise, with the message naming the roles joined by ", " |
| RoleMiddleware.JoinMentions | mern-exercise-tracker/backend/middleware/roleMiddleware.js:13 | every listed role appears in the joined text |
| RoleMiddleware.RefusalNamesRoles | mern-exercise-tracker/backend/middleware/roleMiddleware.js:12-14 | a refusal message names every allowed role |
| RoleMiddleware.NoRolesRefusesAll | mern-exercise-tracker/backend/middleware/roleMiddleware.js:12-14 | with no roles allowed, every signed-in user is refused |
| AccidentReporting.SeverityRank | frontend-new/src/components/AccidentReporting.jsx:75-76 | ranks lie in 0..4, and 4 exactly for 'Critical' |
| AccidentReporting.FilteredAccidents | frontend-new/src/components/AccidentReporting.jsx:70-79 | a permutation of the accidents whose lower-cased location contains the lower-cased term, in non-increasing order of the chosen key; ties keep their loaded order (`AccidentReporting.FilteredTies`) |
| AccidentReporting.FilteredTies | frontend-new/src/components/AccidentReporting.jsx:72-79 | `Array.prototype.sort` is stable: the listed accidents with equal timestamps under 'newest', or equal ranks under 'severity', keep the order in which they were loaded |
| AccidentReporting.FilteredMember | frontend-new/src/components/AccidentReporting.jsx:71 | an accident is listed iff it is loaded and its location matches the search, ignoring case |
| AccidentReporting.EmptySearchKeepsAll | frontend-new/src/components/AccidentReporting.jsx:71 | the empty search keeps every accident |
| AccidentReporting.SeverityOrder | frontend-new/src/components/AccidentReporting.jsx:74-77 | under 'severity' the ranks (Critical 4, High 3, Medium 2, Low 1, other 0) do not increase along the list |
| AccidentReporting.NewestOrder | frontend-new/src/components/AccidentReporting.jsx:73 | under 'newest' the timestamps do not increase along the list |
| AccidentReporting.OtherSortKeepsOrder | frontend-new/src/components/AccidentReporting.jsx:78 | any other sort mode keeps the loaded order of the matches |

## Behaviours of the code

The model reproduces these behaviours of the handlers as written:

- **Donors never carry an account.** `Donor.js` (backend/models/Donor.js:3-78) declares no `userId`, so strict mode drops the `userId` that `registerDonor` spreads into the body (backend/controllers/donorController.js:222-225). The model stores every donor without one (`DonorSchema.Create`, `DonorController.RegisterDonor`).
- **A matched donor makes `createEmergency` fail.** The alert loop (backend/controllers/emergencyController.js:61-80) creates a notification for `donor.userId`, which is always undefined. So the first alert throws and the handler answers 500. The case stays stored, and no alert, confirmation or broadcast is made. The case succeeds only when no donor was matched (`EmergencyController.OpenedOutcome`, `EmergencyController.CreateEmergency`). The loop itself is modelled for any donor (`EmergencyController.AlertMatched`).
- **The request body reaches the stored case.** `createEmergency` spreads the body (backend/controllers/emergencyController.js:9-14). A client-sent `createdAt`, `resolvedAt`, `isAmbulanceDispatched` or `ambulanceDetails` is stored (`EmergencySchema.Create`), and so is a donor's `createdAt` (`DonorSchema.Create`).
- **A geo search of GET /donors is a 500.** When `lat`, `lng` and `distance` are all given, the `$near` filter (backend/controllers/donorController.js:31-41) also goes to `countDocuments` (line 50), which refuses `$near` (`DonorController.GetDonors`).
- **The feedback summary ignores id filters.** The aggregate `$match` (backend/controllers/feedbackController.js:128-135) does not cast the `donorId` and `emergencyId` strings to ObjectIds, so with either filter it matches nothing, and `averageRating` and `totalRatings` are 0 (`FeedbackController.Summarised`, `FeedbackController.GetFeedback`).
- **Report reasons are dropped.** `reportReasons` is not declared in backend/models/Review.js, so the `$push` at backend/controllers/feedbackController.js:209 is dropped, and only `reportCount` grows (`FeedbackController.ReportFeedback`).
- **Closing a case again re-stamps it.** Closing an already closed case stamps `resolvedAt` again with the new time (backend/controllers/emergencyController.js:121-126, `EmergencyController.ResolvedAtRestamped`).
- **An update applies every field it carries.** The status, the ambulance details and the responder status are all applied; they are not mutually exclusive (backend/controllers/emergencyController.js:119-150).
- **The donor rating is never recomputed.** `updateDonorRating` refers to `mongoose`, which the file does not import, so it always ends in its own `catch` (backend/controllers/feedbackController.js:236-256, `FeedbackController.UpdateDonorRating`).
- **A named-donor review ends in 500.** The notice for a named, existing donor uses `Notification`, which `feedbackController.js` does not import, so that path answers 500 after the feedback was stored (backend/controllers/feedbackController.js:54-66).

## Left out

- **Distances.** The Haversine distance (`calculateDistance`) is floating point. Distances come with the geo answer instead.
- **The geo query.** `$near` is answered by the database, so the hits it returns are a parameter of the model. `EmergencyController.NearQuery` states what a well-behaved answer is: stored donors, distinct, within the radius, nearest first.
- **Rounding of nearby distances.** The rounding `Math.round(d * 10) / 10` in `getNearbyDonors` is not modelled. `DonorController.GetNearbyDonors` reports the distance as the geo answer gives it.
- **Mongoose strict-mode stripping.** Strict mode is modelled where it changes an outcome: `Donor.userId` and `Feedback.reportReasons` are never stored. The `updatedAt` that `updateEmergency` writes is also dropped, and the model's update document does not carry it.
- Text.ToLower: lowers the capitals that `Text.Capital` lists (Latin A to Z, Latin-1, Greek except Σ, Cyrillic U+0400 to U+042F). Capitals outside these ranges are kept, although `toLowerCase` lowers them. Σ is kept because its small form depends on its place in the word, and İ (U+0130) is kept because it lowers to two characters.
- AccidentReporting.FilteredAccidents: the case-insensitive match uses `Text.ToLower`, so a capital outside the covered ranges matches in the browser but not in the model.
- AccidentReporting.FilteredMember: the same gap as `AccidentReporting.FilteredAccidents`.
- DonorSchema.LowerIdempotent: holds for the modelled `lowercase` mapping, which covers only the ranges `Text.Capital` lists.
- EmergencySchema.Create: `hospitalName`, `hospitalContact`, `alertedHospitals` and `estimatedTime` (backend/models/emergency.js:41-76) are not modelled; nothing the handlers decide reads them. A body's `responders` are validated by the schema and then replaced by the matched donors; the model passes only the replacement. A responder's `eta` and a point whose coordinates are not two numbers are not modelled either.
- DonorSchema.Create: `lastDonationDate`, `nextAvailableDate`, `emergencyContacts` and `healthInfo` (backend/models/Donor.js:43-59) are not modelled; nothing the handlers decide reads them.
- FeedbackController.AverageInRange: holds only without a donor or emergency id filter. With either filter the aggregate matches nothing, so `averageRating` is 0 whatever the rating bounds (`FeedbackController.GetFeedback`).
- **Request value casting.** Mongoose's casting of request values (numbers sent as strings, malformed ObjectIds that raise a CastError, answered 500, or 400 in the appointment create, update and cancel handlers, whose `catch` answers 400) is not modelled. Ids are naturals, and bodies arrive typed.
- **Floating point and NaN.** Floating point, NaN and JavaScript number coercion are not modelled. Ratings are integers, and money and ages are integers.
- **Pagination bounds:**
  - EmergencyController.UserEmergencies: requires `page >= 1` and `limit >= 1`, because a zero or negative `limit` or `page` makes `skip`/`limit` and `Math.ceil(total / limit)` meaningless.
  - DonorController.GetDonors: requires `page >= 1` and `limit >= 1`, for the same reason; the geo branch answers 500 before any page is read.
  - FeedbackController.GetFeedback: requires `page >= 1` and `limit >= 1`, for the same reason.
  - NotificationController.GetNotifications: requires `page >= 1` and `limit >= 1`, for the same reason.
- FeedbackController.GetFeedback: a few more parts are weaker than the source.
  - The `ratingDistribution` aggregate is not modelled.
  - `sortBy` is one of `createdAt`, `rating` or "a field the records lack", not an arbitrary path.
  - Ties keep insertion order.
- **Order among equal sort keys.** MongoDB leaves the order of documents with equal sort keys unspecified, and the model fixes it to insertion order (the stable `Ordering.SortDesc`). On a real server a page may then repeat or skip a row that ties with its neighbours across a page boundary, so `Ordering.PagesCoverAll` holds for the model only.
  - EmergencyController.UserEmergencies: cases with equal `createdAt` are ordered by insertion.
  - EmergencyController.UserEmergenciesPage: the exact slice assumes that tie order.
  - DonorController.GetDonors: donors with equal availability and rating are ordered by insertion; ties are the normal case, since every new donor has rating 0.
  - DonorController.GetDonorsPage: the exact slice assumes that tie order.
  - NotificationController.GetNotifications: notifications with equal `createdAt` are ordered by insertion.
- **`populate` joins.** The `populate` joins of `getEmergency` and `getFeedback` only shape the JSON answer, so they are not modelled.
- AppointmentController.AppointmentTable.UpdateAppointment:
  - It takes the statuses already parsed. A string outside the enumeration, which the handler stores unchecked because `findByIdAndUpdate` runs no validators, is not representable.
  - An absent field leaves the stored value alone, which is how current Mongoose drops `undefined` update values.
  - The `updatedAt` that `timestamps: true` (backend/src/models/Appointment.js:68) stamps on every `findByIdAndUpdate` is not modelled: the record has no timestamp fields.
- AppointmentController.AppointmentTable.CancelAppointment: changes only the status among the modelled fields. The `updatedAt` stamp of `timestamps: true` (backend/src/models/Appointment.js:68) is not modelled.
- AppointmentController.AppointmentTable.CreateAppointment: the `createdAt` and `updatedAt` that `timestamps: true` stamps on a new appointment are not modelled.
- **Dates.** Date parsing and time zones are not modelled. `new Date(appointmentDate + 'T' + appointmentTime)` and `new Date(appointmentDate)` are parameters (None for an invalid date). Every clock reading (`Date.now()`, `toISOString()`) is a parameter too.
- **The Mongo branch of the persistence service.** Its three functions are not modelled because the branch is never taken. backend/config/db.js is not part of this model; it exports only `connectDB`.
- **Other file-store details.** Creating the data directory, the JSON text format and a file that parses to something other than an array are not modelled. A successful parse is taken to give an array of patient records.
- **Socket.IO.** Emits are recorded as events in order. Delivery, rooms joined by clients and the client-side `feedback-submitted` emit are not modelled.
- **Notification payloads.** The `data` and `actionUrl` fields of notifications are not modelled; nothing the handlers decide depends on them.
- **Concurrency.** Concurrency across `await` points is not modelled. Each handler runs to completion against the database before the next one starts.
- **React rendering.** Toasts, the rendering itself, remounting a component (which resets its `useState` fields) and the hard-coded demo user of `AuthContext` are not modelled. The countdown's timers are modelled as a count of running intervals that fire in turn.
- **The accident list.** A missing `location` (a thrown TypeError) is not modelled, and neither are invalid dates. Severities that name inherited object properties such as "toString", which make the comparator NaN, are not modelled either.
- **Spreading a string.** `{ ...v }` of a string, which gives one property per UTF-16 code unit keyed by its index, is not modelled. `Js.OwnProperties` gives nothing for a string.
- **Id arithmetic in the users model.** An id that is an object is taken to be a plain object, whose `+ 1` is "[object Object]1". Objects with their own `valueOf` or `toString` are not modelled.
