/** How an order's review and a restaurant's review summary are shown:
    the star rows, the truncated comment and the summary label. */
module ReviewDisplay {
  import opened Wrappers
  import opened Types

  /** Comments longer than this are collapsed. */
  const CommentLimit := 150

  const Anonymous := "Anonymous Customer"

  /** How a comment is shown: not at all (missing or empty), whole, or
      behind a Read More / Show Less toggle. */
  datatype CommentView = NoComment | Plain(text: string) | Collapsible(text: string, toggle: string)

  function ViewComment(comment: Option<string>, expanded: bool): (r: CommentView)
    ensures r == NoComment <==> comment.None? || comment.value == ""
    ensures r.Plain? <==> comment.Some? && 0 < |comment.value| <= CommentLimit
    ensures r.Plain? ==> r.text == comment.value
    ensures r.Collapsible? <==> comment.Some? && |comment.value| > CommentLimit
    ensures r.Collapsible? && expanded ==> r.text == comment.value && r.toggle == "Show Less"
    ensures r.Collapsible? && !expanded ==>
      |r.text| == CommentLimit + 3 && r.text[..CommentLimit] == comment.value[..CommentLimit] &&
      r.text[CommentLimit..] == "..." && r.toggle == "Read More"
  {
    if comment.None? || comment.value == "" then NoComment
    else if |comment.value| > CommentLimit then
      if expanded then Collapsible(comment.value, "Show Less")
      else Collapsible(comment.value[..CommentLimit] + "...", "Read More")
    else Plain(comment.value)
  }

  /** The five stars of a rating: star i is filled iff i < rating. */
  function Stars(rating: int): (r: seq<bool>)
    ensures |r| == 5
    ensures forall i :: 0 <= i < 5 ==> (r[i] <==> i < rating)
  {
    seq(5, i => i < rating)
  }

  function FilledCount(stars: seq<bool>): nat {
    if stars == [] then 0
    else FilledCount(stars[..|stars| - 1]) + (if stars[|stars| - 1] then 1 else 0)
  }

  /** A row whose first m entries are exactly the filled ones has m filled. */
  lemma {:induction false} FilledPrefixCount(stars: seq<bool>, m: nat)
    requires m <= |stars|
    requires forall i :: 0 <= i < |stars| ==> (stars[i] <==> i < m)
    ensures FilledCount(stars) == m
    decreases |stars|
  {
    if stars != [] {
      var init := stars[..|stars| - 1];
      if m == |stars| {
        FilledPrefixCount(init, m - 1);
      } else {
        FilledPrefixCount(init, m);
      }
    }
  }

  /** The number of filled stars is the rating clamped to 0..5. */
  lemma FilledStars(rating: int)
    ensures FilledCount(Stars(rating)) == if rating < 0 then 0 else if rating > 5 then 5 else rating
  {
    var m := if rating < 0 then 0 else if rating > 5 then 5 else rating;
    FilledPrefixCount(Stars(rating), m);
  }

  /** The summary's star i is filled to `rating - i`, clamped to 0..1. */
  function StarFill(rating: real, index: nat): (r: real)
    ensures 0.0 <= r <= 1.0
    ensures r == 1.0 <==> rating >= index as real + 1.0
    ensures r == 0.0 <==> rating <= index as real
  {
    var d := rating - index as real;
    if d > 1.0 then 1.0 else if d < 0.0 then 0.0 else d
  }

  /** The five fills add up to the rating clamped to 0..5: the summary row
      draws exactly the average. */
  lemma FillsAddUp(rating: real)
    ensures StarFill(rating, 0) + StarFill(rating, 1) + StarFill(rating, 2) + StarFill(rating, 3) + StarFill(rating, 4)
      == if rating < 0.0 then 0.0 else if rating > 5.0 then 5.0 else rating
  {
  }

  /** "review" for exactly one, "reviews" otherwise. */
  function ReviewLabel(totalReviews: int): (r: string)
    ensures r == "review" <==> totalReviews == 1
    ensures r != "review" ==> r == "reviews"
  {
    if totalReviews == 1 then "review" else "reviews"
  }

  /** The reviewer's name, or the anonymous default when missing or empty. */
  function ReviewerName(name: Option<string>): (r: string)
    ensures r != ""
    ensures name.Some? && name.value != "" ==> r == name.value
    ensures name.None? || name.value == "" ==> r == Anonymous
  {
    if name.Some? && name.value != "" then name.value else Anonymous
  }

  /** What the review panel shows. */
  datatype ReviewPanel =
    | NoReviewYet
    | ReviewCard(reviewer: string, stars: seq<bool>, comment: CommentView)

  /** With no review, only the placeholder; otherwise the reviewer, the
      stars of its rating and its comment. */
  function ViewReview(review: Option<Review>, expanded: bool): (r: ReviewPanel)
    ensures r == NoReviewYet <==> review.None?
    ensures r.ReviewCard? ==>
      r.reviewer == ReviewerName(review.value.consumerName) &&
      r.stars == Stars(review.value.rating_value) &&
      r.comment == ViewComment(review.value.comment, expanded)
  {
    if review.None? then NoReviewYet
    else ReviewCard(ReviewerName(review.value.consumerName), Stars(review.value.rating_value),
                    ViewComment(review.value.comment, expanded))
  }

  /** The panel's only state: whether a long comment is expanded. */
  class ReviewPanelState {
    var isExpanded: bool

    constructor ()
      ensures !isExpanded
    {
      isExpanded := false;
    }

    /** The Read More / Show Less button flips the flag. */
    method ToggleExpanded()
      modifies this
      ensures isExpanded == !old(isExpanded)
    {
      isExpanded := !isExpanded;
    }
  }
}
