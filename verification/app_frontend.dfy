/**
 * The decision logic of the single-page client frontend/src/App.js: how the
 * feedback form turns its fields into a request, the label under the star
 * rating, and the emergency button's five-second countdown.
 */
module AppFrontend {
  import opened Wrappers
  import opened Text
  import opened Js
  import opened Ordering

  /** An entry survives the normalisation: truthy and not blank after trimming. */
  predicate NotBlank(s: string) {
    Trim(s) != []
  }

  /** The pros/cons normalisation of `handleFeedbackSubmit`: an array keeps
      its non-blank entries as they are, a string becomes its trimmed self
      unless blank, anything else becomes empty. */
  function NormaliseEntries(v: ListField): (r: seq<string>)
    ensures forall i :: 0 <= i < |r| ==> NotBlank(r[i])
    ensures v.Missing? ==> r == []
    ensures v.Single? ==> r == if NotBlank(v.s) then [Trim(v.s)] else []
    ensures v.Many? ==> |r| <= |v.items| && r == Filter(v.items, NotBlank)
  {
    match v
    case Missing => []
    case Single(s) =>
      if Trim(s) != [] then TrimIdempotent(s); [Trim(s)] else []
    case Many(items) => Filter(items, NotBlank)
  }

  /** An array entry is kept exactly when it is not blank, and it is kept
      as it was, surrounding white space included. */
  lemma NormaliseMany(items: seq<string>, x: string)
    ensures x in NormaliseEntries(Many(items)) <==> x in items && NotBlank(x)
  {
    FilterMember(items, NotBlank, x);
  }

  /** The two shapes disagree on white space: an array entry keeps it, a
      single string loses it. */
  lemma ArrayEntriesKeepSpaces()
    ensures NormaliseEntries(Many([" a "])) == [" a "]
    ensures NormaliseEntries(Single(" a ")) == ["a"]
  {
    PaddedTrim();
    var padded := " a ";
    assert Filter([padded], NotBlank) == [padded] + Filter([padded][1..], NotBlank);
  }

  lemma PaddedTrim()
    ensures Trim(" a ") == "a"
  {
    var padded, tail, word := " a ", "a ", "a";
    assert padded[0] == ' ' && padded[1..] == tail;
    assert TrimStart(padded) == TrimStart(tail);
    assert tail[0] == 'a' && !IsSpace(tail[0]);
    assert TrimStart(tail) == tail;
    assert tail[|tail| - 1] == ' ' && tail[..|tail| - 1] == word;
    assert TrimEnd(tail) == TrimEnd(word);
    assert !IsSpace(word[|word| - 1]);
  }

  /** The form's four fields. */
  datatype FormFields = FormFields(rating: int, comment: string, pros: string, cons: string)

  /** The body `handleFeedbackSubmit` posts. */
  datatype FeedbackRequest = FeedbackRequest(
    name: string, rating: int, comment: string, pros: seq<string>, cons: seq<string>)

  /** What pressing submit does: the request sent, if any, and the fields afterwards. */
  datatype FormStep = FormStep(request: Option<FeedbackRequest>, form: FormFields)

  /** `handleSubmit` of the feedback form for user `name`, where `success`
      is the outcome of the POST.  No stars or a blank comment refuses to
      send; otherwise the trimmed comment and the normalised pros and cons
      are sent, and the fields are cleared only when the post succeeded. */
  function SubmitForm(f: FormFields, name: string, success: bool): (r: FormStep)
    ensures r.request.None? <==> f.rating == 0 || !NotBlank(f.comment)
    ensures r.request.None? ==> r.form == f
    ensures r.request.Some? ==>
      && r.request.value.rating == f.rating
      && r.request.value.comment == Trim(f.comment)
      && r.request.value.pros == NormaliseEntries(Single(f.pros))
      && r.request.value.cons == NormaliseEntries(Single(f.cons))
      && r.form == (if success then FormFields(0, "", "", "") else f)
  {
    if f.rating == 0 || !NotBlank(f.comment) then FormStep(None, f)
    else
      var request := FeedbackRequest(name, f.rating, Trim(f.comment),
                                     NormaliseEntries(Single(f.pros)), NormaliseEntries(Single(f.cons)));
      FormStep(Some(request), if success then FormFields(0, "", "", "") else f)
  }

  /** The comment sent is non-empty and starts and ends with a non-space. */
  lemma SentCommentTrimmed(f: FormFields, name: string, success: bool)
    requires SubmitForm(f, name, success).request.Some?
    ensures Trimmed(SubmitForm(f, name, success).request.value.comment)
  {
  }

  /** A cleared form refuses a second submission until it is filled in again. */
  lemma ClearedFormRefused(f: FormFields, name: string, again: bool)
    requires SubmitForm(f, name, true).request.Some?
    ensures SubmitForm(SubmitForm(f, name, true).form, name, again).request.None?
  {
  }

  /** The text under the stars. */
  /** The label of each of the six star counts, from none to five. */
  const StarLabels: seq<string> := ["Select rating", "Very Poor", "Poor", "Average", "Good", "Excellent"]

  function RatingLabel(rating: int): (text: string)
    ensures text == "Select rating" <==> rating == 0
    ensures 0 <= rating < |StarLabels| ==> text == StarLabels[rating]
    ensures rating < 0 || rating >= |StarLabels| ==> text == "Excellent"
  {
    if rating == 0 then "Select rating"
    else if rating == 1 then "Very Poor"
    else if rating == 2 then "Poor"
    else if rating == 3 then "Average"
    else if rating == 4 then "Good"
    else "Excellent"
  }

  /** The six ratings the stars can produce get six different labels, and
      every value past 4 reads 'Excellent'. */
  lemma RatingLabelsDistinct(a: int, b: int)
    requires 0 <= a < b <= 5
    ensures RatingLabel(a) != RatingLabel(b)
    ensures b == 5 ==> RatingLabel(b) == "Excellent"
  {
  }

  /**
   * The emergency button's state: whether the confirmation is shown, the
   * count on screen, the number of `setInterval` timers still running and
   * the number of times `handleEmergencyActivation` was called.  Every
   * timer ticks the same shared count.
   */
  class EmergencyButton {
    var showConfirm: bool
    var countdown: int
    var intervals: nat
    var activations: nat

    ghost predicate Valid()
      reads this
    {
      countdown >= 0
    }

    constructor ()
      ensures Valid()
      ensures !showConfirm && countdown == 5 && intervals == 0 && activations == 0
    {
      showConfirm, countdown, intervals, activations := false, 5, 0, 0;
    }

    /** `startCountdown`: show the confirmation, reset the count to 5 and
        start one more timer. */
    method StartCountdown()
      requires Valid()
      modifies this
      ensures Valid()
      ensures showConfirm && countdown == 5
      ensures intervals == old(intervals) + 1 && activations == old(activations)
    {
      showConfirm := true;
      countdown := 5;
      intervals := intervals + 1;
    }

    /** One tick of one running timer: a count of 1 or less becomes 0, stops
        that timer, activates and hides the confirmation; a larger count
        goes down by one. */
    method Tick()
      requires Valid() && intervals > 0
      modifies this
      ensures Valid()
      ensures old(countdown) <= 1 ==>
        && countdown == 0 && intervals == old(intervals) - 1
        && activations == old(activations) + 1 && !showConfirm
      ensures old(countdown) > 1 ==>
        && countdown == old(countdown) - 1 && intervals == old(intervals)
        && activations == old(activations) && showConfirm == old(showConfirm)
    {
      if countdown <= 1 {
        intervals := intervals - 1;
        activations := activations + 1;
        showConfirm := false;
        countdown := 0;
      } else {
        countdown := countdown - 1;
      }
    }

    /** 'Activate Now': hides the confirmation and activates; the timer is
        not cleared. */
    method ActivateNow()
      modifies this`showConfirm, this`activations
      ensures !showConfirm && activations == old(activations) + 1
    {
      showConfirm := false;
      activations := activations + 1;
    }

    /** 'Cancel': hides the confirmation; the timer is not cleared. */
    method Cancel()
      modifies this`showConfirm
      ensures !showConfirm
    {
      showConfirm := false;
    }

    /** Lets every running timer fire until it stops itself.  Each timer
        activates exactly once; the first one needs a tick per count above
        1, every timer one more. */
    method RunIntervals() returns (ticks: nat)
      requires Valid()
      modifies this
      ensures Valid()
      ensures intervals == 0 && activations == old(activations) + old(intervals)
      ensures old(intervals) > 0 ==>
        && countdown == 0 && !showConfirm
        && ticks == old(intervals) + (if old(countdown) > 1 then old(countdown) - 1 else 0)
      ensures old(intervals) == 0 ==> ticks == 0 && countdown == old(countdown) && showConfirm == old(showConfirm)
    {
      ticks := 0;
      while intervals > 0
        invariant Valid()
        invariant activations + intervals == old(activations) + old(intervals)
        invariant ticks + intervals + (if countdown > 1 then countdown - 1 else 0)
                  == old(intervals) + (if old(countdown) > 1 then old(countdown) - 1 else 0)
        invariant intervals < old(intervals) ==> countdown == 0 && !showConfirm
        invariant intervals == old(intervals) ==>
          ticks + (if countdown > 1 then countdown - 1 else 0) == (if old(countdown) > 1 then old(countdown) - 1 else 0)
        invariant old(intervals) == 0 ==> ticks == 0 && countdown == old(countdown) && showConfirm == old(showConfirm)
        decreases intervals, countdown
      {
        Tick();
        ticks := ticks + 1;
      }
    }
  }

  /** Left alone, the countdown shows 5, 4, 3, 2, 1 and activates once,
      on the fifth tick. */
  method CountdownActivatesOnce() returns (ticks: nat, activations: nat)
    ensures ticks == 5 && activations == 1
  {
    var b := new EmergencyButton();
    b.StartCountdown();
    ticks := b.RunIntervals();
    activations := b.activations;
  }

  /** Cancelling hides the confirmation but the timer still activates. */
  method CancelStillActivates() returns (activations: nat)
    ensures activations == 1
  {
    var b := new EmergencyButton();
    b.StartCountdown();
    b.Cancel();
    var ticks := b.RunIntervals();
    activations := b.activations;
  }

  /** 'Activate Now' activates at once and the timer activates again. */
  method ActivateNowActivatesTwice() returns (activations: nat)
    ensures activations == 2
  {
    var b := new EmergencyButton();
    b.StartCountdown();
    b.ActivateNow();
    var ticks := b.RunIntervals();
    activations := b.activations;
  }

  /** Starting again after a cancel runs a second timer on the same count:
      both activate. */
  method RestartAfterCancel() returns (activations: nat)
    ensures activations == 2
  {
    var b := new EmergencyButton();
    b.StartCountdown();
    b.Cancel();
    b.StartCountdown();
    var ticks := b.RunIntervals();
    activations := b.activations;
  }
}
