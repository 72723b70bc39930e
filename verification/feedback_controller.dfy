/**
 * The feedback handlers: submitting a feedback, the filtered listing with
 * its average rating, and the helpful and report counters.
 *
 * The controller refers to `mongoose` and `Notification` without importing
 * them.  Both references throw a ReferenceError when reached: the one in the
 * donor-rating helper is caught there, so the helper never changes anything;
 * the one in `submitFeedback` is caught by the handler, which answers 500
 * after the feedback was stored.
 */
module FeedbackController {
  import opened Wrappers
  import opened Ids
  import opened Js
  import opened Ordering
  import opened ReviewSchema
  import DonorSchema
  import opened Store

  /** The body of POST /feedback; every field may be missing. */
  datatype FeedbackBody = FeedbackBody(
    rating: Option<int>,
    comment: Option<string>,
    pros: ListField,
    cons: ListField,
    tags: Option<seq<string>>,
    emergencyId: Option<Id>,
    donorId: Option<Id>,
    isAnonymous: Option<bool>)

  /** `v ? (Array.isArray(v) ? v : [v]) : []`. */
  function ListOf(v: ListField): (r: seq<string>)
    ensures v.Missing? ==> r == []
    ensures v.Single? ==> r == if v.s == [] then [] else [v.s]
    ensures v.Many? ==> r == v.items
  {
    match v
    case Missing => []
    case Single(s) => if s != [] then [s] else []
    case Many(items) => items
  }

  /** The submission is anonymous exactly when `isAnonymous` is true. */
  predicate Anonymous(body: FeedbackBody) {
    body.isAnonymous == Some(true)
  }

  /** The document handed to `Feedback.create`. */
  function FeedbackData(body: FeedbackBody, userId: Id): (input: FeedbackInput)
    requires body.rating.Some? && body.comment.Some?
    ensures input.userId == if Anonymous(body) then None else Some(userId)
    ensures input.rating == body.rating.value && input.comment == body.comment.value
    ensures input.pros == ListOf(body.pros) && input.cons == ListOf(body.cons)
    ensures input.tags == body.tags.GetOr([])
    ensures input.isAnonymous <==> Anonymous(body)
  {
    FeedbackInput(
      userId := if body.isAnonymous.Some? && body.isAnonymous.value then None else Some(userId),
      rating := body.rating.value,
      comment := body.comment.value,
      pros := ListOf(body.pros),
      cons := ListOf(body.cons),
      tags := if body.tags.Some? then body.tags.value else [],
      emergencyId := body.emergencyId,
      donorId := body.donorId,
      isAnonymous := if body.isAnonymous.Some? then body.isAnonymous.value else false)
  }

  /** `Feedback.findOne({ userId, emergencyId })` finds something. */
  predicate AlreadyReviewed(feedback: map<Id, Feedback>, userId: Id, emergencyId: Id) {
    exists k :: k in feedback && feedback[k].userId == Some(userId) && feedback[k].emergencyId == Some(emergencyId)
  }

  /** An anonymous feedback is stored without a user, so storing one never
      changes what the duplicate check finds. */
  lemma AnonymousInvisible(feedback: map<Id, Feedback>, k: Id, f: Feedback, userId: Id, emergencyId: Id)
    requires k !in feedback && f.userId.None?
    ensures AlreadyReviewed(feedback[k := f], userId, emergencyId) <==> AlreadyReviewed(feedback, userId, emergencyId)
  {
    if AlreadyReviewed(feedback[k := f], userId, emergencyId) {
      var j :| j in feedback[k := f] && feedback[k := f][j].userId == Some(userId)
               && feedback[k := f][j].emergencyId == Some(emergencyId);
      assert j != k;
      assert j in feedback;
    }
    if AlreadyReviewed(feedback, userId, emergencyId) {
      var j :| j in feedback && feedback[j].userId == Some(userId) && feedback[j].emergencyId == Some(emergencyId);
      assert feedback[k := f][j] == feedback[j];
    }
  }

  /** `updateDonorRating`: its first statement refers to `mongoose`, which the
      module never imports, and the ReferenceError is caught and logged.  It
      answers whether it took that path and changes nothing. */
  method UpdateDonorRating(db: Database, donorId: Id) returns (caught: bool)
    ensures caught
  {
    caught := true;
  }

  /** The body passes the handler's own check: rating and comment truthy. */
  predicate HasRequiredFields(body: FeedbackBody) {
    NumGiven(body.rating) && StrGiven(body.comment)
  }

  /** A second feedback from the same user for the same emergency. */
  predicate Duplicate(feedback: map<Id, Feedback>, userId: Id, body: FeedbackBody) {
    body.emergencyId.Some? && AlreadyReviewed(feedback, userId, body.emergencyId.value)
  }

  /** The request reaches the notification for the donor, where the missing
      `Notification` import throws. */
  predicate ReachesDonorNotice(donors: map<Id, DonorSchema.Donor>, body: FeedbackBody) {
    !Anonymous(body) && body.donorId.Some? && body.donorId.value in donors
  }

  /**
   * POST /feedback by user `userId`.  A falsy rating (0 included) or comment
   * is 400, and so is a second feedback for the same emergency; a feedback
   * the schema refuses is 500.  Otherwise the feedback is stored; the
   * donor-rating helper changes nothing; the answer is 201, or 500 when a
   * named, existing donor was reviewed without anonymity.
   */
  method SubmitFeedback(db: Database, userId: Id, body: FeedbackBody, now: int) returns (reply: Reply<Feedback>)
    requires db.Valid()
    modifies db`feedback, db`nextId
    ensures db.Valid()
    ensures !HasRequiredFields(body) ==>
      reply.Error? && reply.code == BadRequest && db.feedback == old(db.feedback)
    ensures HasRequiredFields(body) && Duplicate(old(db.feedback), userId, body) ==>
      reply.Error? && reply.code == BadRequest && db.feedback == old(db.feedback)
    ensures HasRequiredFields(body) && !Duplicate(old(db.feedback), userId, body) ==>
      var created := Create(FeedbackData(body, userId), now);
      && (created.None? ==> reply.Error? && reply.code == ServerError && db.feedback == old(db.feedback))
      && (created.Some? ==>
            && db.feedback == old(db.feedback)[old(db.nextId) := created.value]
            && (ReachesDonorNotice(db.donors, body) ==> reply.Error? && reply.code == ServerError)
            && (!ReachesDonorNotice(db.donors, body) ==> reply == Ok(Created, created.value)))
  {
    if !HasRequiredFields(body) {
      return Error(BadRequest, "Rating and comment are required");
    }
    if body.emergencyId.Some? && AlreadyReviewed(db.feedback, userId, body.emergencyId.value) {
      return Error(BadRequest, "Feedback already submitted for this emergency");
    }
    var created := Create(FeedbackData(body, userId), now);
    if created.None? {
      return Error(ServerError, "Server error");
    }
    var id := db.InsertFeedback(created.value);
    if body.donorId.Some? {
      var caught := UpdateDonorRating(db, body.donorId.value);
    }
    if ReachesDonorNotice(db.donors, body) {
      return Error(ServerError, "Server error");
    }
    return Ok(Created, created.value);
  }

  /** The `rating` part of the listing query: `$gte` and `$lte` bounds, each
      present only when its parameter is truthy. */
  datatype RatingRange = RatingRange(gte: Option<int>, lte: Option<int>)

  function RatingFilter(minRating: Option<NumParam<int>>, maxRating: Option<NumParam<int>>): (r: Option<RatingRange>)
    ensures r.Some? <==> ParamGiven(minRating) || ParamGiven(maxRating)
  {
    if ParamGiven(minRating) || ParamGiven(maxRating) then
      Some(RatingRange(
        gte := if ParamGiven(minRating) then Some(minRating.value.value) else None,
        lte := if ParamGiven(maxRating) then Some(maxRating.value.value) else None))
    else None
  }

  predicate InRange(range: Option<RatingRange>, rating: int) {
    range.Some? ==>
      && (range.value.gte.Some? ==> range.value.gte.value <= rating)
      && (range.value.lte.Some? ==> rating <= range.value.lte.value)
  }

  /** The bounds are inclusive and independent: a rating passes exactly when
      it is at least `minRating` if that was given and at most `maxRating` if
      that was given. */
  lemma RatingFilterMeaning(minRating: Option<NumParam<int>>, maxRating: Option<NumParam<int>>, rating: int)
    ensures InRange(RatingFilter(minRating, maxRating), rating) <==>
      && (ParamGiven(minRating) ==> minRating.value.value <= rating)
      && (ParamGiven(maxRating) ==> rating <= maxRating.value.value)
  {
  }

  /** The field the listing is sorted by. */
  datatype SortField = ByCreatedAt | ByRating | ByOther

  /** The query string of GET /feedback (`page` and `limit` apart). */
  datatype FeedbackParams = FeedbackParams(
    donorId: Option<Id>,
    emergencyId: Option<Id>,
    minRating: Option<NumParam<int>>,
    maxRating: Option<NumParam<int>>,
    sortBy: SortField,
    descending: bool)

  predicate FeedbackMatches(p: FeedbackParams, f: Feedback) {
    && (p.donorId.Some? ==> f.donorId == p.donorId)
    && (p.emergencyId.Some? ==> f.emergencyId == p.emergencyId)
    && InRange(RatingFilter(p.minRating, p.maxRating), f.rating)
  }

  /** `{ [sortBy]: sortOrder === 'desc' ? -1 : 1 }` as a descending key; a
      field the records do not have sorts every record alike. */
  function SortKey(p: FeedbackParams, f: Feedback): real {
    var k := match p.sortBy
      case ByCreatedAt => f.createdAt as real
      case ByRating => f.rating as real
      case ByOther => 0.0;
    if p.descending then k else -k
  }

  function SumRatings(s: seq<Feedback>): int {
    if s == [] then 0 else s[0].rating + SumRatings(s[1..])
  }

  /** The ratings of `s` sum to between `lo` and `hi` times their number
      when each lies between `lo` and `hi`. */
  lemma {:induction false} SumRatingsBounds(s: seq<Feedback>, lo: int, hi: int)
    requires forall i :: 0 <= i < |s| ==> lo <= s[i].rating <= hi
    ensures lo * |s| <= SumRatings(s) <= hi * |s|
  {
    if s != [] {
      SumRatingsBounds(s[1..], lo, hi);
    }
  }

  /** The answer of GET /feedback: one page, and the `$avg`/`$sum` summary. */
  datatype FeedbackPage = FeedbackPage(listing: Listing<Feedback>, averageRating: real, totalRatings: nat)

  /** `averageRating[0]?.avgRating || 0` over the matches. */
  function Average(matches: seq<Feedback>): real {
    if matches == [] then 0.0 else SumRatings(matches) as real / |matches| as real
  }

  /** The records the `$avg`/`$sum` aggregate sees.  Mongoose does not cast
      the stages of an aggregate, so a `donorId` or `emergencyId` filter, which
      arrives from the query string as text, matches no stored ObjectId there,
      while `find` and `countDocuments`, which cast it, do match. */
  function Summarised(rows: seq<Feedback>, p: FeedbackParams): (s: seq<Feedback>)
    ensures p.donorId.None? && p.emergencyId.None? ==> s == Filter(rows, f => FeedbackMatches(p, f))
    ensures p.donorId.Some? || p.emergencyId.Some? ==> s == []
  {
    if p.donorId.Some? || p.emergencyId.Some? then [] else Filter(rows, f => FeedbackMatches(p, f))
  }

  /** GET /feedback over the feedback in insertion order. */
  function GetFeedback(rows: seq<Feedback>, p: FeedbackParams, page: nat, limit: nat): (r: FeedbackPage)
    requires page >= 1 && limit >= 1
    ensures forall f :: f in r.listing.data ==> f in rows && FeedbackMatches(p, f)
    ensures |r.listing.data| <= limit
    ensures Descending(r.listing.data, f => SortKey(p, f))
    ensures var sorted := SortDesc(Filter(rows, f => FeedbackMatches(p, f)), f => SortKey(p, f));
      r.listing.data == sorted[Min(Skip(page, limit), |sorted|)..Min(Skip(page, limit) + limit, |sorted|)]
    ensures r.listing.total == Count(rows, f => FeedbackMatches(p, f))
    ensures r.totalRatings == |Summarised(rows, p)|
    ensures r.totalRatings == 0 ==> r.averageRating == 0.0
    ensures r.totalRatings > 0 ==> r.averageRating == SumRatings(Summarised(rows, p)) as real / r.totalRatings as real
    ensures p.donorId.Some? || p.emergencyId.Some? ==> r.totalRatings == 0 && r.averageRating == 0.0
  {
    var summarised := Summarised(rows, p);
    FeedbackPage(Query(rows, f => FeedbackMatches(p, f), f => SortKey(p, f), page, limit), Average(summarised), |summarised|)
  }

  /** The mean of ratings that each lie between `lo` and `hi` lies between them too. */
  lemma AverageBounds(s: seq<Feedback>, lo: int, hi: int)
    requires s != []
    requires forall i :: 0 <= i < |s| ==> lo <= s[i].rating <= hi
    ensures lo as real <= Average(s) <= hi as real
  {
    SumRatingsBounds(s, lo, hi);
    QuotientBounds(SumRatings(s) as real, |s| as real, lo as real, hi as real);
  }

  lemma QuotientBounds(a: real, n: real, lo: real, hi: real)
    requires n > 0.0 && lo * n <= a <= hi * n
    ensures lo <= a / n <= hi
  {
  }

  /** Without an id filter, the average lies within the rating range asked for. */
  lemma AverageInRange(rows: seq<Feedback>, p: FeedbackParams, page: nat, limit: nat, lo: int, hi: int)
    requires page >= 1 && limit >= 1
    requires p.donorId.None? && p.emergencyId.None?
    requires RatingFilter(p.minRating, p.maxRating) == Some(RatingRange(Some(lo), Some(hi)))
    requires Count(rows, f => FeedbackMatches(p, f)) > 0
    ensures lo as real <= GetFeedback(rows, p, page, limit).averageRating <= hi as real
  {
    var matches := Filter(rows, f => FeedbackMatches(p, f));
    forall i | 0 <= i < |matches|
      ensures lo <= matches[i].rating <= hi
    {
      assert FeedbackMatches(p, matches[i]);
    }
    AverageBounds(matches, lo, hi);
  }

  /** PUT /feedback/:feedbackId/helpful: `$inc: { helpfulCount: 1 }`, 404 for an unknown id. */
  method MarkHelpful(db: Database, feedbackId: Id) returns (reply: Reply<nat>)
    requires db.Valid()
    modifies db`feedback
    ensures db.Valid()
    ensures feedbackId !in old(db.feedback) ==>
      reply.Error? && reply.code == NotFound && db.feedback == old(db.feedback)
    ensures feedbackId in old(db.feedback) ==>
      var f := old(db.feedback)[feedbackId];
      && db.feedback == old(db.feedback)[feedbackId := f.(helpfulCount := f.helpfulCount + 1)]
      && reply == Ok(200, f.helpfulCount + 1)
  {
    if feedbackId !in db.feedback {
      return Error(NotFound, "Feedback not found");
    }
    var f := db.feedback[feedbackId];
    db.feedback := db.feedback[feedbackId := f.(helpfulCount := f.helpfulCount + 1)];
    return Ok(200, f.helpfulCount + 1);
  }

  /** PUT /feedback/:feedbackId/report: `$inc: { reportCount: 1 }`, 404 for
      an unknown id.  The `$push: { reportReasons: reason }` beside it names a
      path the review schema does not declare, so strict mode drops it and
      the reason sent is stored nowhere. */
  method ReportFeedback(db: Database, feedbackId: Id, reason: Option<string>) returns (reply: Reply<nat>)
    requires db.Valid()
    modifies db`feedback
    ensures db.Valid()
    ensures feedbackId !in old(db.feedback) ==>
      reply.Error? && reply.code == NotFound && db.feedback == old(db.feedback)
    ensures feedbackId in old(db.feedback) ==>
      var f := old(db.feedback)[feedbackId];
      && db.feedback == old(db.feedback)[feedbackId := f.(reportCount := f.reportCount + 1)]
      && reply == Ok(200, f.reportCount + 1)
  {
    if feedbackId !in db.feedback {
      return Error(NotFound, "Feedback not found");
    }
    var f := db.feedback[feedbackId];
    db.feedback := db.feedback[feedbackId := f.(reportCount := f.reportCount + 1)];
    return Ok(200, f.reportCount + 1);
  }

  /** The counters change the record's counters and nothing the schema checks. */
  lemma CountersKeepValid(f: Feedback)
    requires Valid(f)
    ensures Valid(f.(helpfulCount := f.helpfulCount + 1))
    ensures Valid(f.(reportCount := f.reportCount + 1))
  {
  }
}
