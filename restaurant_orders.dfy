/** The restaurant's order list: status counts, the review statistics, the
    status filter, the "time ago" label, the status buttons and the
    optimistic status update. */
module RestaurantOrders {
  import opened Wrappers
  import opened Strings
  import opened Lists
  import opened Types
  import Api

  // ---------------------------------------------------------------------
  // Status counts

  datatype OrderStats = OrderStats(pending: nat, readyForPickup: nat, completed: nat, canceled: nat)

  predicate IsPending(o: Order) { o.status == Pending }
  predicate IsReady(o: Order) { o.status == Ready }
  predicate IsCompleted(o: Order) { o.status == Completed }
  predicate IsCanceled(o: Order) { o.status == Canceled }
  predicate IsDonated(o: Order) { o.status == Donated }

  /** `calculateStats`: one count per status shown; donated orders are counted nowhere. */
  function CalculateStats(orders: seq<Order>): (r: OrderStats)
    ensures r.pending == Count(orders, IsPending) && r.readyForPickup == Count(orders, IsReady)
    ensures r.completed == Count(orders, IsCompleted) && r.canceled == Count(orders, IsCanceled)
    ensures r.pending + r.readyForPickup + r.completed + r.canceled + Count(orders, IsDonated) == |orders|
  {
    StatusCountsSum(orders);
    OrderStats(Count(orders, IsPending), Count(orders, IsReady), Count(orders, IsCompleted), Count(orders, IsCanceled))
  }

  /** Each order has exactly one of the five statuses. */
  lemma {:induction false} StatusCountsSum(orders: seq<Order>)
    ensures Count(orders, IsPending) + Count(orders, IsReady) + Count(orders, IsCompleted) +
      Count(orders, IsCanceled) + Count(orders, IsDonated) == |orders|
    decreases |orders|
  {
    if orders != [] {
      StatusCountsSum(orders[1..]);
    }
  }

  /** The four counts never exceed the number of orders, and fall short of
      it exactly by the donated orders. */
  lemma StatsBound(orders: seq<Order>)
    ensures var s := CalculateStats(orders);
      s.pending + s.readyForPickup + s.completed + s.canceled <= |orders|
    ensures var s := CalculateStats(orders);
      s.pending + s.readyForPickup + s.completed + s.canceled == |orders| <==>
      forall i :: 0 <= i < |orders| ==> orders[i].status != Donated
  {
    var s := CalculateStats(orders);
    if forall i :: 0 <= i < |orders| ==> orders[i].status != Donated {
      NoneCounted(orders, IsDonated);
    } else {
      var i :| 0 <= i < |orders| && orders[i].status == Donated;
      CountPositive(orders, IsDonated, i);
    }
  }

  lemma {:induction false} NoneCounted(orders: seq<Order>, p: Order -> bool)
    requires forall i :: 0 <= i < |orders| ==> !p(orders[i])
    ensures Count(orders, p) == 0
    decreases |orders|
  {
    if orders != [] {
      NoneCounted(orders[1..], p);
    }
  }

  // ---------------------------------------------------------------------
  // Reviews

  /** `getReview`: the embedded review normalised to one review or none. */
  function GetReview(o: Order): (r: Option<Review>)
    ensures o.review.NoReview? ==> r.None?
    ensures o.review.Single? ==> r == Some(o.review.review)
    ensures o.review.Many? && o.review.reviews == [] ==> r.None?
    ensures o.review.Many? && o.review.reviews != [] ==> r == Some(o.review.reviews[0])
  {
    match o.review
    case NoReview => None
    case Single(rv) => Some(rv)
    case Many(rs) => if |rs| > 0 then Some(rs[0]) else None
  }

  predicate HasReview(o: Order) {
    GetReview(o).Some?
  }

  /** The rating of an order's review, 0 when it has none. */
  function RatingOf(o: Order): int {
    if HasReview(o) then GetReview(o).value.rating_value else 0
  }

  /** The sum of the ratings of the reviewed orders. */
  function RatingSum(orders: seq<Order>): int
    decreases |orders|
  {
    if orders == [] then 0 else RatingOf(orders[0]) + RatingSum(orders[1..])
  }

  datatype ReviewStats = ReviewStats(averageRating: real, totalReviews: nat)

  /** `calculateReviewStats`: no reviewed order gives {0, 0}; otherwise the
      number of reviewed orders and the mean of their ratings. */
  function CalculateReviewStats(orders: seq<Order>): (r: ReviewStats)
    ensures r.totalReviews == Count(orders, HasReview)
    ensures r.totalReviews == 0 ==> r.averageRating == 0.0
    ensures r.totalReviews > 0 ==> r.averageRating * r.totalReviews as real == RatingSum(orders) as real
  {
    var total := Count(orders, HasReview);
    if total == 0 then ReviewStats(0.0, 0)
    else ReviewStats(RatingSum(orders) as real / total as real, total)
  }

  predicate RatingsInRange(orders: seq<Order>) {
    forall i :: 0 <= i < |orders| && HasReview(orders[i]) ==> 1 <= RatingOf(orders[i]) <= 5
  }

  /** With ratings between 1 and 5 the sum lies between the count and five times it. */
  lemma {:induction false} RatingSumBounds(orders: seq<Order>)
    requires RatingsInRange(orders)
    ensures Count(orders, HasReview) <= RatingSum(orders) <= 5 * Count(orders, HasReview)
    decreases |orders|
  {
    if orders != [] {
      assert RatingsInRange(orders[1..]) by {
        forall i | 0 <= i < |orders[1..]| && HasReview(orders[1..][i])
          ensures 1 <= RatingOf(orders[1..][i]) <= 5
        {
          assert orders[1..][i] == orders[i + 1];
        }
      }
      RatingSumBounds(orders[1..]);
    }
  }

  /** With ratings between 1 and 5 the average, when there is one, lies between 1 and 5. */
  lemma AverageInRange(orders: seq<Order>)
    requires RatingsInRange(orders)
    ensures var s := CalculateReviewStats(orders);
      s.totalReviews > 0 ==> 1.0 <= s.averageRating <= 5.0
  {
    var s := CalculateReviewStats(orders);
    if s.totalReviews > 0 {
      RatingSumBounds(orders);
      MeanBounds(RatingSum(orders) as real, s.totalReviews as real);
    }
  }

  lemma MeanBounds(sum: real, n: real)
    requires n > 0.0 && n <= sum <= 5.0 * n
    ensures 1.0 <= sum / n <= 5.0
  {
    MeanAtLeastOne(sum, n);
    MeanAtMostFive(sum, n);
  }

  lemma MeanAtLeastOne(sum: real, n: real)
    requires n > 0.0 && n <= sum
    ensures 1.0 <= sum / n
  {
    assert sum / n * n == sum;
  }

  lemma MeanAtMostFive(sum: real, n: real)
    requires n > 0.0 && sum <= 5.0 * n
    ensures sum / n <= 5.0
  {
    assert sum / n * n == sum;
  }

  // ---------------------------------------------------------------------
  // Filter and status update

  datatype StatusFilter = AllOrders | OnlyStatus(status: OrderStatus)

  predicate HasStatus(s: OrderStatus, o: Order) {
    o.status == s
  }

  /** The status test as the callback handed to `filter`. */
  function StatusIs(s: OrderStatus): Order -> bool {
    o => HasStatus(s, o)
  }

  /** `filteredOrders`: the whole list for "all", otherwise exactly the
      orders with that status in their original order. */
  function FilteredOrders(orders: seq<Order>, filter: StatusFilter): (r: seq<Order>)
    ensures filter.AllOrders? ==> r == orders
    ensures IsSubsequence(r, orders)
    ensures filter.OnlyStatus? ==> forall i :: 0 <= i < |r| ==> r[i].status == filter.status
    ensures filter.OnlyStatus? ==> forall i :: 0 <= i < |orders| && orders[i].status == filter.status ==> orders[i] in r
    ensures filter.OnlyStatus? ==> |r| == Count(orders, StatusIs(filter.status))
  {
    match filter
    case AllOrders =>
      SubsequenceReflexive(orders);
      orders
    case OnlyStatus(s) =>
      FilterIsSubsequence(orders, StatusIs(s));
      Filter(orders, StatusIs(s))
  }

  /** The list after a status change: only the order with that id takes the
      new status. */
  function SetStatus(orders: seq<Order>, id: string, status: OrderStatus): (r: seq<Order>)
    ensures |r| == |orders|
    ensures forall i :: 0 <= i < |orders| ==>
      r[i] == if orders[i].id == id then orders[i].(status := status) else orders[i]
  {
    seq(|orders|, i requires 0 <= i < |orders| => if orders[i].id == id then orders[i].(status := status) else orders[i])
  }

  /** Applying the same status change twice is the same as applying it once. */
  lemma SetStatusIdempotent(orders: seq<Order>, id: string, status: OrderStatus)
    ensures SetStatus(SetStatus(orders, id, status), id, status) == SetStatus(orders, id, status)
  {
  }

  /** A status change does not touch the reviews, so the review statistics stay. */
  lemma {:induction false} SetStatusKeepsReviews(orders: seq<Order>, id: string, status: OrderStatus)
    ensures CalculateReviewStats(SetStatus(orders, id, status)) == CalculateReviewStats(orders)
    decreases |orders|
  {
    SetStatusKeepsReviewCounts(orders, id, status);
  }

  lemma {:induction false} SetStatusKeepsReviewCounts(orders: seq<Order>, id: string, status: OrderStatus)
    ensures Count(SetStatus(orders, id, status), HasReview) == Count(orders, HasReview)
    ensures RatingSum(SetStatus(orders, id, status)) == RatingSum(orders)
    decreases |orders|
  {
    if orders != [] {
      var r := SetStatus(orders, id, status);
      assert r[1..] == SetStatus(orders[1..], id, status);
      assert GetReview(r[0]) == GetReview(orders[0]);
      SetStatusKeepsReviewCounts(orders[1..], id, status);
    }
  }

  // ---------------------------------------------------------------------
  // Status buttons

  /** The status changes offered on an order card: pending orders can be
      made ready or canceled, ready orders completed, others nothing. */
  function Transitions(s: OrderStatus): (r: seq<OrderStatus>)
    ensures s == Pending ==> r == [Ready, Canceled]
    ensures s == Ready ==> r == [Completed]
    ensures s != Pending && s != Ready ==> r == []
  {
    match s
    case Pending => [Ready, Canceled]
    case Ready => [Completed]
    case _ => []
  }

  /** How far an order has progressed through the restaurant's workflow. */
  function Stage(s: OrderStatus): nat {
    match s
    case Pending => 0
    case Ready => 1
    case _ => 2
  }

  /** Every offered change moves the order forward, so no sequence of button
      presses returns an order to pending or ready, and at most two presses
      apply to any order. */
  lemma TransitionsMoveForward(s: OrderStatus, t: OrderStatus)
    requires t in Transitions(s)
    ensures Stage(t) > Stage(s)
    ensures t != Pending
  {
  }

  /** A run of button clicks from pending takes at most two steps, and the
      only two-step run is pending, ready, completed, after which no button
      is left. */
  lemma {:induction false} TransitionsEnd(path: seq<OrderStatus>)
    requires |path| >= 1 && path[0] == Pending
    requires forall i :: 0 <= i < |path| - 1 ==> path[i + 1] in Transitions(path[i])
    ensures |path| <= 3
    ensures |path| == 3 ==> path == [Pending, Ready, Completed] && Transitions(path[2]) == []
  {
    StageAtLeastIndex(path, |path| - 1);
    if |path| == 3 {
      assert path[1] in Transitions(path[0]);
      StageAtLeastIndex(path, 2);
      TransitionsMoveForward(path[1], path[2]);
      assert path[1] == Ready;
      assert path[2] in Transitions(path[1]);
    }
  }

  lemma {:induction false} StageAtLeastIndex(path: seq<OrderStatus>, i: nat)
    requires i < |path|
    requires forall j :: 0 <= j < |path| - 1 ==> path[j + 1] in Transitions(path[j])
    ensures Stage(path[i]) >= i
  {
    if i > 0 {
      StageAtLeastIndex(path, i - 1);
      TransitionsMoveForward(path[i - 1], path[i]);
    }
  }

  // ---------------------------------------------------------------------
  // "time ago"

  /** The unit shown by `timeAgo`, with its count. */
  datatype Ago = MinutesAgo(minutes: int) | HoursAgo(hours: int) | DaysAgo(days: int)

  /** Floors of floors: dividing by a and then by b is dividing by a * b. */
  lemma FloorDivTwice(x: int, a: int, b: int)
    requires a > 0 && b > 0
    ensures (x / a) / b == x / (a * b)
  {
    var q, r := x / a, x % a;
    var q2, r2 := q / b, q % b;
    assert x == q * a + r;
    assert q == q2 * b + r2;
    assert q * a == q2 * (a * b) + r2 * a by {
      MulDistributes(q2 * b, r2, a);
      assert (q2 * b) * a == q2 * (a * b);
    }
    assert 0 <= r2 * a <= (b - 1) * a by {
      MulMonotone(r2, b - 1, a);
    }
    assert (b - 1) * a == a * b - a;
    DivUnique(x, a * b, q2, r2 * a + r);
  }

  lemma MulDistributes(x: int, y: int, z: int)
    ensures (x + y) * z == x * z + y * z
  {
  }

  lemma MulMonotone(x: int, y: int, z: int)
    requires 0 <= x <= y && z >= 0
    ensures 0 <= x * z <= y * z
  {
  }

  /** The quotient is determined by a remainder in range. */
  lemma DivUnique(x: int, d: int, q: int, r: int)
    requires d > 0 && 0 <= r < d && x == q * d + r
    ensures x / d == q
  {
    var q0, r0 := x / d, x % d;
    assert x == q0 * d + r0;
    MulDistributes(q - q0, q0, d);
    assert (q - q0) * d == r0 - r;
    NonzeroMultiple(q - q0, d);
  }

  /** A nonzero multiple of a positive number is at least that number away
      from zero. */
  lemma NonzeroMultiple(k: int, d: int)
    requires d > 0
    ensures k >= 1 ==> k * d >= d
    ensures k <= -1 ==> k * d <= -d
  {
    if k >= 1 {
      MulMonotone(1, k, d);
    } else if k <= -1 {
      MulMonotone(1, -k, d);
      MulDistributes(k, -k, d);
    }
  }

  /** `timeAgo` for an age in milliseconds: whole minutes under an hour,
      whole hours under a day, whole days otherwise (all floored). */
  function TimeAgo(elapsedMs: int): (r: Ago)
    ensures r.MinutesAgo? <==> elapsedMs / 60000 < 60
    ensures r.MinutesAgo? ==> r.minutes == elapsedMs / 60000
    ensures r.HoursAgo? ==> r.hours == elapsedMs / 3600000 && 1 <= r.hours < 24
    ensures r.DaysAgo? ==> r.days == elapsedMs / 86400000 && r.days >= 1
  {
    var minutes := elapsedMs / 60000;
    if minutes < 60 then MinutesAgo(minutes)
    else
      var hours := minutes / 60;
      FloorDivTwice(elapsedMs, 60000, 60);
      if hours < 24 then HoursAgo(hours)
      else
        FloorDivTwice(elapsedMs, 3600000, 24);
        DaysAgo(hours / 24)
  }

  function AgoText(a: Ago): string {
    match a
    case MinutesAgo(m) => IntToString(m) + " mins ago"
    case HoursAgo(h) => IntToString(h) + " hours ago"
    case DaysAgo(d) => IntToString(d) + " days ago"
  }

  // ---------------------------------------------------------------------
  // Page state

  class RestaurantOrdersPage {
    var orders: seq<Order>
    var stats: OrderStats
    var reviewStats: ReviewStats
    var loading: bool
    var filter: StatusFilter

    constructor ()
      ensures orders == [] && stats == OrderStats(0, 0, 0, 0) && reviewStats == ReviewStats(0.0, 0)
      ensures loading && filter == AllOrders
    {
      orders := [];
      stats := OrderStats(0, 0, 0, 0);
      reviewStats := ReviewStats(0.0, 0);
      loading := true;
      filter := AllOrders;
    }

    /** The figures describe the list. */
    ghost predicate Consistent()
      reads this
    {
      stats == CalculateStats(orders) && reviewStats == CalculateReviewStats(orders)
    }

    /** `fetchOrders`: without a user only loading changes; an error leaves
        the list and the figures as they were; otherwise the list (or [] when
        no data came back) replaces them. Loading ends false. */
    method FetchOrders(signedIn: bool, response: Api.Response<seq<Order>>)
      modifies this
      ensures !loading && filter == old(filter)
      ensures signedIn && response.error.None? ==> orders == response.data.GetOr([]) && Consistent()
      ensures !signedIn || response.error.Some? ==>
        orders == old(orders) && stats == old(stats) && reviewStats == old(reviewStats)
    {
      loading := true;
      if signedIn && response.error.None? {
        orders := response.data.GetOr([]);
        stats := CalculateStats(orders);
        reviewStats := CalculateReviewStats(orders);
      }
      loading := false;
    }

    /** `handleStatusUpdate`: the change is applied to the list first; on
        success the counts follow it, on failure the list is fetched again
        (and keeps the unconfirmed change if that fetch fails too). */
    method HandleStatusUpdate(orderId: string, newStatus: OrderStatus, outcome: Outcome, reload: Api.Response<seq<Order>>)
      requires Consistent()
      modifies this
      ensures filter == old(filter)
      ensures outcome.Ok? ==> orders == SetStatus(old(orders), orderId, newStatus) && Consistent()
      ensures outcome.Ok? ==> loading == old(loading)
      ensures outcome.Fail? && reload.error.None? ==> orders == reload.data.GetOr([]) && Consistent()
      ensures outcome.Fail? && reload.error.Some? ==>
        orders == SetStatus(old(orders), orderId, newStatus) && stats == old(stats) && reviewStats == old(reviewStats)
    {
      orders := SetStatus(orders, orderId, newStatus);
      if outcome.Fail? {
        FetchOrders(true, reload);
        return;
      }
      SetStatusKeepsReviews(old(orders), orderId, newStatus);
      stats := CalculateStats(orders);
    }

    /** The orders shown under the current filter. */
    function Shown(): (r: seq<Order>)
      reads this
      ensures IsSubsequence(r, orders)
    {
      FilteredOrders(orders, filter)
    }
  }
}
