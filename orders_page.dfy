/** The consumer's order history: which orders may be reviewed, which have
    been, and the per-order review form with its checks. */
module OrdersPage {
  import opened Wrappers
  import opened Strings
  import opened Lists
  import opened Types
  import Api

  /** Completed and donated orders can be reviewed. */
  predicate IsEligible(o: Order) {
    o.status == Completed || o.status == Donated
  }

  predicate IsIneligible(o: Order) {
    !IsEligible(o)
  }

  /** The ids of the eligible orders, in list order. */
  function EligibleIds(orders: seq<Order>): (r: seq<string>)
    ensures |r| == Count(orders, IsEligible)
    ensures forall i :: 0 <= i < |orders| && IsEligible(orders[i]) ==> orders[i].id in r
    ensures forall id :: id in r ==> exists i :: 0 <= i < |orders| && IsEligible(orders[i]) && orders[i].id == id
  {
    EligibleIdsComplete(orders);
    EligibleIdsSound(orders);
    IdsOf(Filter(orders, IsEligible))
  }

  /** The ids of a list of orders, in order. */
  function IdsOf(os: seq<Order>): (r: seq<string>)
    ensures |r| == |os| && forall k :: 0 <= k < |r| ==> r[k] == os[k].id
  {
    seq(|os|, k requires 0 <= k < |os| => os[k].id)
  }

  /** Every eligible order's id is among the ids of the filtered orders. */
  lemma EligibleIdsComplete(orders: seq<Order>)
    ensures forall i :: 0 <= i < |orders| && IsEligible(orders[i]) ==> orders[i].id in IdsOf(Filter(orders, IsEligible))
  {
    var eligible := Filter(orders, IsEligible);
    var r := IdsOf(eligible);
    forall i | 0 <= i < |orders| && IsEligible(orders[i])
      ensures orders[i].id in r
    {
      assert orders[i] in eligible;
      var k :| 0 <= k < |eligible| && eligible[k] == orders[i];
      assert r[k] == orders[i].id;
    }
  }

  /** Every id of the filtered orders is the id of an eligible order. */
  lemma EligibleIdsSound(orders: seq<Order>)
    ensures forall id :: id in IdsOf(Filter(orders, IsEligible)) ==>
      exists i :: 0 <= i < |orders| && IsEligible(orders[i]) && orders[i].id == id
  {
    var eligible := Filter(orders, IsEligible);
    var r := IdsOf(eligible);
    forall id | id in r
      ensures exists i :: 0 <= i < |orders| && IsEligible(orders[i]) && orders[i].id == id
    {
      var k :| 0 <= k < |r| && r[k] == id;
      var o := eligible[k];
      assert o in orders && IsEligible(o);
      var i :| 0 <= i < |orders| && orders[i] == o;
      assert IsEligible(orders[i]) && orders[i].id == id;
    }
  }

  /** The order ids of the reviews found. */
  function ReviewedIds(reviews: seq<Api.ReviewRef>): (r: set<string>)
    ensures forall i :: 0 <= i < |reviews| ==> reviews[i].order_id in r
    ensures forall id :: id in r ==> exists i :: 0 <= i < |reviews| && reviews[i].order_id == id
  {
    set i | 0 <= i < |reviews| :: reviews[i].order_id
  }

  /** The reviewed set after a lookup: the reviews' order ids, or nothing
      when the lookup failed. */
  function ReviewedAfterLookup(lookup: Api.ReviewsLookup): (r: set<string>)
    ensures lookup.error.Some? ==> r == {}
    ensures lookup.error.None? ==> r == ReviewedIds(lookup.data)
  {
    if lookup.error.None? then ReviewedIds(lookup.data) else {}
  }

  /** With no eligible order there is no lookup and nothing is reviewed. */
  lemma NoEligibleNoneReviewed(orders: seq<Order>, response: Api.Response<seq<Api.ReviewRef>>)
    requires forall o :: o in orders ==> !IsEligible(o)
    ensures var lookup := Api.GetMyReviewsForOrders(EligibleIds(orders), response);
      !lookup.queried && ReviewedAfterLookup(lookup) == {}
  {
    FilterAll(orders, IsIneligible);
    CountIsFilterLength(orders, IsIneligible);
    CountComplement(orders, IsEligible, IsIneligible);
  }

  /** `restaurantId`: the first non-empty of the meal's restaurant_id, the
      joined restaurant's user_id and its id; none when all are missing. */
  function RestaurantIdOf(o: Order): (r: Option<string>)
    ensures r.Some? ==> r.value != ""
    ensures o.meal.Some? && o.meal.value.restaurant_id != "" ==> r == Some(o.meal.value.restaurant_id)
    ensures o.meal.None? ==> r.None?
  {
    if o.meal.None? then None
    else
      var m := o.meal.value;
      if m.restaurant_id != "" then Some(m.restaurant_id)
      else if m.restaurant.Some? && m.restaurant.value.user_id.Some? && m.restaurant.value.user_id.value != ""
      then Some(m.restaurant.value.user_id.value)
      else if m.restaurant.Some? && m.restaurant.value.id != "" then Some(m.restaurant.value.id)
      else None
  }

  /** A restaurant id is found iff one of the three places holds a non-empty id. */
  lemma RestaurantIdFound(o: Order)
    ensures RestaurantIdOf(o).Some? <==>
      o.meal.Some? &&
      (o.meal.value.restaurant_id != "" ||
       (o.meal.value.restaurant.Some? &&
        ((o.meal.value.restaurant.value.user_id.Some? && o.meal.value.restaurant.value.user_id.value != "") ||
         o.meal.value.restaurant.value.id != "")))
  {
  }

  predicate CanReview(o: Order) {
    IsEligible(o) && RestaurantIdOf(o).Some?
  }

  /** What the order card shows for reviewing. */
  datatype ReviewControl = NoControl | RateButton | RatedBadge

  /** "Rate" for a reviewable order not yet reviewed, "Rated" for one that
      was, nothing otherwise. */
  function ReviewControlFor(o: Order, reviewed: set<string>): (r: ReviewControl)
    ensures r == RateButton <==> CanReview(o) && o.id !in reviewed
    ensures r == RatedBadge <==> CanReview(o) && o.id in reviewed
    ensures r == NoControl <==> !CanReview(o)
  {
    if !CanReview(o) then NoControl
    else if o.id in reviewed then RatedBadge
    else RateButton
  }

  /** The comment sent: trimmed, or left out when blank. */
  function CommentToSend(comment: string): (r: Option<string>)
    ensures r.None? <==> IsBlank(comment)
    ensures r.Some? ==> r.value == Trim(comment) && !IsSpace(r.value[0]) && !IsSpace(r.value[|r.value| - 1])
  {
    TrimEmptyIffBlank(comment);
    if Trim(comment) != "" then Some(Trim(comment)) else None
  }

  /** A review as sent to the backend. */
  datatype ReviewRequest = ReviewRequest(consumerId: string, restaurantId: string, orderId: string, ratingValue: int, comment: Option<string>)

  const NotLoggedIn := "You must be logged in to review."
  const MissingRestaurant := "Restaurant info is missing for this order."
  const RatingOutOfRange := "Rating must be between 1 and 5."
  const SubmitFailed := "Failed to submit review"

  /** The state of the order list. */
  class OrdersPageState {
    var orders: seq<Order>
    var loading: bool
    var error: Option<string>
    var reviewedOrders: set<string>

    constructor ()
      ensures orders == [] && loading && error.None? && reviewedOrders == {}
    {
      orders := [];
      loading := true;
      error := None;
      reviewedOrders := {};
    }

    /** `loadOrders`: without a user nothing happens. A load error is shown
        and empties the orders and the reviewed set. Otherwise the orders (or
        none) are kept and the reviewed set is looked up for the eligible ids
        only. Loading ends false when a user is present. */
    method LoadOrders(signedIn: bool, response: Api.Response<seq<Order>>, reviews: Api.Response<seq<Api.ReviewRef>>)
      returns (lookup: Option<Api.ReviewsLookup>)
      modifies this
      ensures !signedIn ==>
        orders == old(orders) && loading == old(loading) && error == old(error) &&
        reviewedOrders == old(reviewedOrders) && lookup.None?
      ensures signedIn ==> !loading
      ensures signedIn && response.error.Some? ==>
        error == response.error && orders == [] && reviewedOrders == {} && lookup.None?
      ensures signedIn && response.error.None? ==> error.None? && orders == response.data.GetOr([])
      ensures signedIn && response.error.None? ==>
        lookup == Some(Api.GetMyReviewsForOrders(EligibleIds(orders), reviews)) &&
        reviewedOrders == ReviewedAfterLookup(lookup.value)
    {
      if !signedIn {
        return None;
      }
      loading := true;
      error := None;
      if response.error.Some? {
        error := response.error;
        orders := [];
        reviewedOrders := {};
        loading := false;
        return None;
      }
      orders := response.data.GetOr([]);
      var ids := EligibleIds(orders);
      var l := Api.GetMyReviewsForOrders(ids, reviews);
      lookup := Some(l);
      if |ids| > 0 {
        if l.error.None? {
          reviewedOrders := ReviewedIds(l.data);
        } else {
          reviewedOrders := {};
        }
      } else {
        reviewedOrders := {};
      }
      loading := false;
    }
  }

  /** The review form of one order card. */
  class ReviewForm {
    var showReview: bool
    var rating: int
    var comment: string
    var reviewLoading: bool
    var reviewError: Option<string>

    constructor ()
      ensures !showReview && rating == 5 && comment == "" && !reviewLoading && reviewError.None?
    {
      showReview := false;
      rating := 5;
      comment := "";
      reviewLoading := false;
      reviewError := None;
    }

    /** The "Rate" button opens the form. */
    method OpenReview()
      modifies this`showReview
      ensures showReview
    {
      showReview := true;
    }

    /** `closeReview`: the form is hidden and back to its defaults. */
    method CloseReview()
      modifies this
      ensures !showReview && reviewError.None? && rating == 5 && comment == ""
      ensures reviewLoading == old(reviewLoading)
    {
      showReview := false;
      reviewError := None;
      rating := 5;
      comment := "";
    }

    /** `submitReview`: a missing user, a missing restaurant id or a rating
        outside 1..5 sets the matching error and sends nothing. Otherwise
        the review is sent; success closes the form and asks for a reload,
        failure shows the error's message (or a default). */
    method SubmitReview(userId: Option<string>, o: Order, outcome: Outcome)
      returns (sent: Option<ReviewRequest>, reloadRequested: bool)
      modifies this
      ensures sent.Some? ==> !reviewLoading
      ensures sent.None? ==> reviewLoading == old(reviewLoading)
      ensures userId.None? ==> sent.None? && reviewError == Some(NotLoggedIn)
      ensures userId.Some? && RestaurantIdOf(o).None? ==> sent.None? && reviewError == Some(MissingRestaurant)
      ensures userId.Some? && RestaurantIdOf(o).Some? && !(1 <= old(rating) <= 5) ==>
        sent.None? && reviewError == Some(RatingOutOfRange)
      ensures sent.None? ==> !reloadRequested && showReview == old(showReview) && rating == old(rating) && comment == old(comment)
      ensures sent.Some? <==> userId.Some? && RestaurantIdOf(o).Some? && 1 <= old(rating) <= 5
      ensures sent.Some? ==>
        sent.value == ReviewRequest(userId.value, RestaurantIdOf(o).value, o.id, old(rating), CommentToSend(old(comment)))
      ensures sent.Some? && outcome.Ok? ==>
        reloadRequested && !showReview && reviewError.None? && rating == 5 && comment == ""
      ensures sent.Some? && outcome.Fail? ==>
        !reloadRequested && reviewError == Some(MessageOr(outcome.message, SubmitFailed)) &&
        showReview == old(showReview) && rating == old(rating) && comment == old(comment)
    {
      reloadRequested := false;
      if userId.None? {
        reviewError := Some(NotLoggedIn);
        return None, false;
      }
      var restaurantId := RestaurantIdOf(o);
      if restaurantId.None? {
        reviewError := Some(MissingRestaurant);
        return None, false;
      }
      if rating < 1 || rating > 5 {
        reviewError := Some(RatingOutOfRange);
        return None, false;
      }
      reviewLoading := true;
      reviewError := None;
      sent := Some(ReviewRequest(userId.value, restaurantId.value, o.id, rating, CommentToSend(comment)));
      if outcome.Ok? {
        CloseReview();
        reloadRequested := true;
      } else {
        reviewError := Some(MessageOr(outcome.message, SubmitFailed));
      }
      reviewLoading := false;
    }
  }
}
