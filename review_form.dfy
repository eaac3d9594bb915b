/**
 * The review form (src/components/ui/ReviewForm.tsx): a five-star rating with a
 * hover preview, a comment box, and `handleSubmit`, which checks the input in a
 * fixed order and, when every check passes, posts the review. The result of the
 * post is an input (`postSucceeds`); the post itself is not part of this model.
 */
module ReviewForm {
  import opened Wrappers
  import opened Text

  const StarCount: nat := 5
  const AnonymousUser := "Anonymous"

  /** The body of the review post. */
  datatype ReviewRequest = ReviewRequest(businessId: string, userName: string, rating: nat, comment: string)

  /** `!businessId`: absent, null or the empty string. */
  predicate MissingId(businessId: Option<string>)
  {
    businessId.None? || businessId.value == ""
  }

  /**
   * The early-return checks of `handleSubmit`, in order: the message of the first one
   * that fails, or `None` when all pass.
   */
  function Validate(rating: nat, comment: string, businessId: Option<string>): (error: Option<string>)
    ensures error == Some("Please select a rating") <==> rating == 0
    ensures error == Some("Please write a review") <==> rating != 0 && Trim(comment) == ""
    ensures error == Some("Business ID missing") <==> rating != 0 && Trim(comment) != "" && MissingId(businessId)
    ensures error.None? <==> rating != 0 && !Blank(comment) && !MissingId(businessId)
  {
    TrimEmptyIffBlank(comment);
    if rating == 0 then Some("Please select a rating")
    else if Blank(comment) then Some("Please write a review")
    else if MissingId(businessId) then Some("Business ID missing")
    else None
  }

  /** What `handleSubmit` does: show an error and stop, or post and report the outcome. */
  datatype Submission =
    | Rejected(error: string)
    | Posted(request: ReviewRequest, succeeded: bool)

  class Form {
    var rating: nat
    var hoveredRating: nat
    var comment: string
    const businessId: Option<string>

    /** Ratings come from the stars, so both are in 0..5. */
    predicate Valid()
      reads this
    {
      rating <= StarCount && hoveredRating <= StarCount
    }

    constructor (businessId: Option<string>)
      ensures Valid() && rating == 0 && hoveredRating == 0 && comment == "" && this.businessId == businessId
    {
      rating := 0;
      hoveredRating := 0;
      comment := "";
      this.businessId := businessId;
    }

    /** The rating the stars show: the hovered one while hovering, else the chosen one. */
    function Shown(): (n: nat)
      reads this
      ensures Valid() ==> n <= StarCount
      ensures n == 0 <==> hoveredRating == 0 && rating == 0
    {
      if hoveredRating != 0 then hoveredRating else rating
    }

    /** Star i is lit iff i < (hoveredRating || rating). */
    function Stars(): (lit: seq<bool>)
      reads this
      ensures |lit| == StarCount
      ensures forall i :: 0 <= i < StarCount ==> (lit[i] <==> i < Shown())
      ensures forall i, j :: 0 <= i < j < StarCount && lit[j] ==> lit[i]
    {
      var shown := Shown();
      seq(StarCount, i => i < shown)
    }

    /** Clicking star i (0-based) sets the rating to i + 1. */
    method ClickStar(i: nat)
      requires Valid() && i < StarCount
      modifies this`rating
      ensures Valid() && rating == i + 1
    {
      rating := i + 1;
    }

    /** Entering star i previews rating i + 1. */
    method HoverStar(i: nat)
      requires Valid() && i < StarCount
      modifies this`hoveredRating
      ensures Valid() && hoveredRating == i + 1
    {
      hoveredRating := i + 1;
    }

    /** Leaving a star ends the preview. */
    method LeaveStar()
      requires Valid()
      modifies this`hoveredRating
      ensures Valid() && hoveredRating == 0
    {
      hoveredRating := 0;
    }

    method SetComment(text: string)
      modifies this`comment
      ensures comment == text
    {
      comment := text;
    }

    /**
     * `handleSubmit`: stop at the first failed check; otherwise post the review as
     * "Anonymous" and, if the post succeeds, reset the rating and the comment. A
     * rejected or failed submission changes nothing.
     */
    method HandleSubmit(postSucceeds: bool) returns (outcome: Submission)
      requires Valid()
      modifies this`rating, this`comment
      ensures Valid()
      ensures var error := Validate(old(rating), old(comment), businessId);
        && (error.Some? ==> outcome == Rejected(error.value))
        && (error.None? ==>
              outcome == Posted(ReviewRequest(businessId.value, AnonymousUser, old(rating), old(comment)), postSucceeds))
      ensures outcome.Posted? && postSucceeds ==> rating == 0 && comment == ""
      ensures outcome.Rejected? || !postSucceeds ==> rating == old(rating) && comment == old(comment)
    {
      var error := Validate(rating, comment, businessId);
      if error.Some? {
        return Rejected(error.value);
      }
      outcome := Posted(ReviewRequest(businessId.value, AnonymousUser, rating, comment), postSucceeds);
      if postSucceeds {
        rating := 0;
        comment := "";
      }
    }
  }
}
