/**
 * The Feedback record of backend/models/Review.js: rating and comment bounds,
 * the tag enumeration, the trimmed string paths and the counter defaults.
 */
module ReviewSchema {
  import opened Wrappers
  import opened Ids
  import opened Text


  datatype Tag = Professional | FastResponse | Clean | Caring | Delayed | CommunicationIssue | OtherTag

  function TagName(t: Tag): string {
    match t
    case Professional => "professional"
    case FastResponse => "fast_response"
    case Clean => "clean"
    case Caring => "caring"
    case Delayed => "delayed"
    case CommunicationIssue => "communication_issue"
    case OtherTag => "other"
  }

  function ParseTag(s: string): (r: Option<Tag>)
    ensures r.Some? ==> TagName(r.value) == s
    ensures r.Some? <==> s in {"professional", "fast_response", "clean", "caring", "delayed", "communication_issue", "other"}
  {
    if s == "professional" then Some(Professional)
    else if s == "fast_response" then Some(FastResponse)
    else if s == "clean" then Some(Clean)
    else if s == "caring" then Some(Caring)
    else if s == "delayed" then Some(Delayed)
    else if s == "communication_issue" then Some(CommunicationIssue)
    else if s == "other" then Some(OtherTag)
    else None
  }

  /** Every tag of the list names a member of the enumeration. */
  predicate TagsValid(tags: seq<string>) {
    forall i :: 0 <= i < |tags| ==> ParseTag(tags[i]).Some?
  }

  function ParseTags(tags: seq<string>): (r: seq<Tag>)
    requires TagsValid(tags)
    ensures |r| == |tags|
    ensures forall i :: 0 <= i < |r| ==> TagName(r[i]) == tags[i]
  {
    if tags == [] then [] else [ParseTag(tags[0]).value] + ParseTags(tags[1..])
  }

  const MaxCommentLength := 500

  /** A stored feedback. */
  datatype Feedback = Feedback(
    userId: Option<Id>,
    donorId: Option<Id>,
    emergencyId: Option<Id>,
    rating: int,
    comment: string,
    pros: seq<string>,
    cons: seq<string>,
    tags: seq<Tag>,
    isAnonymous: bool,
    helpfulCount: nat,
    reportCount: nat,
    isVerified: bool,
    createdAt: int)

  /** The document handed to `Feedback.create`. */
  datatype FeedbackInput = FeedbackInput(
    userId: Option<Id>,
    rating: int,
    comment: string,
    pros: seq<string>,
    cons: seq<string>,
    tags: seq<string>,
    emergencyId: Option<Id>,
    donorId: Option<Id>,
    isAnonymous: bool)

  /** The schema's invariants on a stored feedback. */
  predicate Valid(f: Feedback) {
    && 1 <= f.rating <= 5
    && f.comment != [] && Utf16Length(f.comment) <= MaxCommentLength && Trim(f.comment) == f.comment
    && (forall i :: 0 <= i < |f.pros| ==> Trim(f.pros[i]) == f.pros[i])
    && (forall i :: 0 <= i < |f.cons| ==> Trim(f.cons[i]) == f.cons[i])
  }

  /** `min: 1, max: 5`, `required` and `maxlength: 500` after the `trim` setter, the tag enum. */
  predicate InputValid(input: FeedbackInput) {
    && 1 <= input.rating <= 5
    && Trim(input.comment) != [] && Utf16Length(Trim(input.comment)) <= MaxCommentLength
    && TagsValid(input.tags)
  }

  /** Each element of a `[{ type: String, trim: true }]` path is trimmed. */
  function TrimAll(s: seq<string>): (r: seq<string>)
    ensures |r| == |s|
    ensures forall i :: 0 <= i < |r| ==> r[i] == Trim(s[i])
  {
    seq(|s|, i requires 0 <= i < |s| => Trim(s[i]))
  }

  /** Trimming each element leaves elements that trimming no longer changes. */
  lemma TrimAllTrimmed(s: seq<string>)
    ensures forall i :: 0 <= i < |s| ==> Trim(TrimAll(s)[i]) == TrimAll(s)[i]
  {
    forall i | 0 <= i < |s|
      ensures Trim(TrimAll(s)[i]) == TrimAll(s)[i]
    {
      TrimIdempotent(s[i]);
    }
  }

  /**
   * `maxlength` counts UTF-16 code units: a comment of 300 emoji is 300
   * characters but 600 code units, and the schema refuses it.
   */
  lemma AstralCommentRefused(input: FeedbackInput, now: int)
    requires input.comment == seq(300, _ => '\U{1F600}')
    ensures |input.comment| <= MaxCommentLength
    ensures Create(input, now).None?
  {
    TrimUnchanged(input.comment);
    Utf16LengthUniform(input.comment);
  }

  /** `Feedback.create(input)` at time `now`, or None for a ValidationError. */
  function Create(input: FeedbackInput, now: int): (r: Option<Feedback>)
    ensures r.Some? <==> InputValid(input)
    ensures r.Some? ==>
      && Valid(r.value)
      && r.value.userId == input.userId
      && r.value.rating == input.rating
      && r.value.comment == Trim(input.comment)
      && r.value.emergencyId == input.emergencyId
      && r.value.donorId == input.donorId
      && r.value.isAnonymous == input.isAnonymous
      && |r.value.pros| == |input.pros| && (forall i :: 0 <= i < |input.pros| ==> r.value.pros[i] == Trim(input.pros[i]))
      && |r.value.cons| == |input.cons| && (forall i :: 0 <= i < |input.cons| ==> r.value.cons[i] == Trim(input.cons[i]))
      && |r.value.tags| == |input.tags| && (forall i :: 0 <= i < |input.tags| ==> TagName(r.value.tags[i]) == input.tags[i])
      && r.value.helpfulCount == 0 && r.value.reportCount == 0
      && !r.value.isVerified
      && r.value.createdAt == now
  {
    if !InputValid(input) then None
    else
      TrimIdempotent(input.comment);
      TrimAllTrimmed(input.pros);
      TrimAllTrimmed(input.cons);
      Some(Feedback(
        userId := input.userId,
        donorId := input.donorId,
        emergencyId := input.emergencyId,
        rating := input.rating,
        comment := Trim(input.comment),
        pros := TrimAll(input.pros),
        cons := TrimAll(input.cons),
        tags := ParseTags(input.tags),
        isAnonymous := input.isAnonymous,
        helpfulCount := 0,
        reportCount := 0,
        isVerified := false,
        createdAt := now))
  }
}
