/** The client-side post-processing done by the query helpers after each
    backend call: dashboard statistics, the impact figures, the donation
    list, the flag toggles and the review lookup. The queries themselves are
    outside the model; what they hand back is a parameter. */
module Api {
  import opened Wrappers
  import opened Types
  import opened Lists

  /** What a backend query hands back: data, an error, both or neither. */
  datatype Response<T> = Response(data: Option<T>, error: Option<string>)

  /** `x || 0` on a nullable number: a missing value counts as 0. */
  function OrZero(x: Option<int>): int {
    x.GetOr(0)
  }

  /** The total of the rows' amounts, a missing amount counting as 0,
      added from the left as a reduce does. */
  function SumAmounts(amounts: seq<Option<int>>): (r: int)
    ensures (forall i :: 0 <= i < |amounts| ==> OrZero(amounts[i]) >= 0) ==> r >= 0
    decreases |amounts|
  {
    if amounts == [] then 0
    else SumAmounts(amounts[..|amounts| - 1]) + OrZero(amounts[|amounts| - 1])
  }

  /** Summing a concatenation sums the parts. */
  lemma {:induction false} SumAmountsAppend(a: seq<Option<int>>, b: seq<Option<int>>)
    ensures SumAmounts(a + b) == SumAmounts(a) + SumAmounts(b)
    decreases |b|
  {
    if b == [] {
      assert a + b == a;
    } else {
      assert (a + b)[..|a + b| - 1] == a + b[..|b| - 1];
      SumAmountsAppend(a, b[..|b| - 1]);
    }
  }

  predicate IsPresent(x: Option<int>) {
    x.Some?
  }

  /** Missing amounts contribute nothing: the sum equals the sum of the present ones. */
  lemma {:induction false} SumAmountsIgnoresMissing(amounts: seq<Option<int>>)
    ensures SumAmounts(amounts) == SumAmounts(Filter(amounts, IsPresent))
    decreases |amounts|
  {
    if amounts != [] {
      var init, last := amounts[..|amounts| - 1], amounts[|amounts| - 1];
      assert amounts == init + [last];
      SumAmountsIgnoresMissing(init);
      FilterAppend(init, [last], IsPresent);
      SumAmountsAppend(Filter(init, IsPresent), Filter([last], IsPresent));
      assert Filter([last], IsPresent) == (if last.Some? then [last] else []) by {
        assert [last][1..] == [];
      }
      if last.Some? {
        assert SumAmounts([last]) == last.value by {
          assert [last][..0] == [];
        }
      }
    }
  }

  // ---------------------------------------------------------------------
  // Restaurant dashboard statistics

  /** A meal row as selected for the restaurant statistics. */
  datatype MealRow = MealRow(id: string, quantity: int, is_sold_out: bool)

  /** The meal joined onto an order row. The join can come back as nothing,
      one object, or an array of objects; only the `type` column is used. */
  datatype JoinedMeal = NoMeal | OneMeal(typeName: string) | MealArray(typeNames: seq<string>)

  datatype SaleRow = SaleRow(id: string, total_amount: Option<int>, created_at: int, meal: JoinedMeal)

  datatype RestaurantStats = RestaurantStats(totalMeals: nat, activeMeals: nat, soldToday: nat, revenueToday: int)

  /** A meal still on offer: not sold out and with stock left. */
  predicate IsActiveMeal(m: MealRow) {
    !m.is_sold_out && m.quantity > 0
  }

  predicate IsInactiveMeal(m: MealRow) {
    m.is_sold_out || m.quantity <= 0
  }

  predicate IsNotCanceledType(t: string) {
    t != "canceled"
  }

  /** The sold-today test as written: the join must be an array holding
      some meal whose type is not "canceled". */
  predicate CountsAsSold(o: SaleRow) {
    o.meal.MealArray? && Count(o.meal.typeNames, IsNotCanceledType) > 0
  }

  function SaleAmounts(orders: seq<SaleRow>): (r: seq<Option<int>>)
    ensures |r| == |orders|
    ensures forall i :: 0 <= i < |orders| ==> r[i] == orders[i].total_amount
  {
    seq(|orders|, i requires 0 <= i < |orders| => orders[i].total_amount)
  }

  /** The restaurant dashboard figures: a meals error or an orders error is
      returned as is; otherwise the meal counts, the orders counted as sold
      and the revenue of today's orders. */
  function RestaurantDashboardStats(meals: Result<seq<MealRow>>, orders: Result<seq<SaleRow>>): (r: Result<RestaurantStats>)
    ensures meals.Failure? ==> r == Failure(meals.message)
    ensures meals.Success? && orders.Failure? ==> r == Failure(orders.message)
    ensures meals.Success? && orders.Success? ==> r.Success?
    ensures r.Success? ==>
      r.value.totalMeals == |meals.value| &&
      r.value.activeMeals <= r.value.totalMeals &&
      r.value.activeMeals == Count(meals.value, IsActiveMeal) &&
      r.value.soldToday == Count(orders.value, CountsAsSold) &&
      r.value.soldToday <= |orders.value| &&
      r.value.revenueToday == SumAmounts(SaleAmounts(orders.value))
  {
    if meals.Failure? then Failure(meals.message)
    else if orders.Failure? then Failure(orders.message)
    else
      Success(RestaurantStats(
        |meals.value|,
        Count(meals.value, IsActiveMeal),
        Count(orders.value, CountsAsSold),
        SumAmounts(SaleAmounts(orders.value))))
  }

  /** Every meal is either active or sold out / out of stock, never both. */
  lemma ActivePlusInactiveIsTotal(meals: seq<MealRow>)
    ensures Count(meals, IsActiveMeal) + Count(meals, IsInactiveMeal) == |meals|
  {
    CountComplement(meals, IsActiveMeal, IsInactiveMeal);
  }

  /** An order whose joined meal is not an array is never counted as sold. */
  lemma {:induction false} SoldTodayNeedsArrayJoin(orders: seq<SaleRow>)
    requires forall i :: 0 <= i < |orders| ==> !orders[i].meal.MealArray?
    ensures Count(orders, CountsAsSold) == 0
    decreases |orders|
  {
    if orders != [] {
      SoldTodayNeedsArrayJoin(orders[1..]);
    }
  }

  /** The "canceled" test never excludes anything when the joined types are
      meal types: an array join counts iff it is non-empty. */
  lemma {:induction false} SoldTodayTypeTestVacuous(o: SaleRow)
    requires o.meal.MealArray?
    requires forall i :: 0 <= i < |o.meal.typeNames| ==> ParseMealType(o.meal.typeNames[i]).Some?
    ensures CountsAsSold(o) <==> o.meal.typeNames != []
  {
    var ts := o.meal.typeNames;
    if ts != [] {
      assert ParseMealType(ts[0]).Some?;
      assert IsNotCanceledType(ts[0]);
      assert ts[0] in Filter(ts, IsNotCanceledType);
    }
  }

  function ParseMealType(s: string): (r: Option<MealType>)
    ensures r.Some? <==> s in {"individual", "magic_box"}
    ensures r.Some? ==> MealTypeName(r.value) == s
  {
    if s == "individual" then Some(Individual)
    else if s == "magic_box" then Some(MagicBox)
    else None
  }

  // ---------------------------------------------------------------------
  // Admin and charity statistics

  /** The admin dashboard revenue: undefined when no order rows came back,
      otherwise their sum with missing amounts as 0; a users or orders error
      replaces the whole result. */
  function AdminRevenue(usersError: Option<string>, orders: Response<seq<Option<int>>>): (r: Result<Option<int>>)
    ensures usersError.Some? ==> r == Failure(usersError.value)
    ensures usersError.None? && orders.error.Some? ==> r == Failure(orders.error.value)
    ensures r.Success? ==> usersError.None? && orders.error.None?
    ensures r.Success? ==> (r.value.Some? <==> orders.data.Some?)
    ensures r.Success? && orders.data.Some? ==> r.value.value == SumAmounts(orders.data.value)
  {
    if usersError.Some? then Failure(usersError.value)
    else if orders.error.Some? then Failure(orders.error.value)
    else if orders.data.None? then Success(None)
    else Success(Some(SumAmounts(orders.data.value)))
  }

  datatype CharityStats = CharityStats(totalDonations: nat, mealsReceived: nat, peopleServed: nat, valueReceived: int)

  /** One order is one donation, one meal received and one person served. */
  function GetCharityStats(amounts: Result<seq<Option<int>>>): (r: Result<CharityStats>)
    ensures amounts.Failure? ==> r == Failure(amounts.message)
    ensures amounts.Success? ==> r.Success?
    ensures r.Success? ==>
      r.value.totalDonations == |amounts.value| &&
      r.value.mealsReceived == r.value.totalDonations &&
      r.value.peopleServed == r.value.mealsReceived &&
      r.value.valueReceived == SumAmounts(amounts.value)
  {
    if amounts.Failure? then Failure(amounts.message)
    else
      var n := |amounts.value|;
      Success(CharityStats(n, n, n, SumAmounts(amounts.value)))
  }

  datatype DonationRestaurant = DonationRestaurant(name: Option<string>, address: Option<string>)
  datatype DonationMeal = DonationMeal(title: Option<string>, pickup_window: Option<int>, restaurant: Option<DonationRestaurant>)

  /** An order row of the donation list; `donor` is the joined consumer's name. */
  datatype DonationOrder = DonationOrder(
    id: string,
    created_at: int,
    status: string,
    total_amount: Option<int>,
    meal: Option<DonationMeal>,
    donor: Option<string>)

  /** A donation row with the quantity column the query cannot select. */
  datatype Donation = Donation(order: DonationOrder, quantity: int)

  datatype DonationsResult = DonationsResult(data: seq<Donation>, error: Option<string>)

  /** Tags every returned row with quantity 1, keeping count and order;
      no data gives the empty list. The error is passed through. */
  function GetDonations(response: Response<seq<DonationOrder>>): (r: DonationsResult)
    ensures response.data.None? ==> r.data == []
    ensures response.data.Some? ==> |r.data| == |response.data.value|
    ensures response.data.Some? ==>
      forall i :: 0 <= i < |r.data| ==> r.data[i] == Donation(response.data.value[i], 1)
    ensures r.error == response.error
  {
    match response.data
    case None => DonationsResult([], response.error)
    case Some(rows) =>
      DonationsResult(seq(|rows|, i requires 0 <= i < |rows| => Donation(rows[i], 1)), response.error)
  }

  // ---------------------------------------------------------------------
  // Consumer impact figures

  /** The consumer-details row; each column may be null. */
  datatype ConsumerDetails = ConsumerDetails(meals_saved: Option<int>, meals_donated: Option<int>, loyalty_points: Option<int>)

  /** The prices of the meal joined onto a completed order. */
  datatype MealPrices = MealPrices(original_price: int, discount_price: int)

  datatype ImpactStats = ImpactStats(meals_saved: int, meals_donated: int, loyalty_points: int, money_saved: int, co2_reduced: real)

  /** What one completed order adds to the money saved: its positive saving,
      or nothing when the meal is missing or the saving is not positive. */
  function Saving(meal: Option<MealPrices>): (r: int)
    ensures r >= 0
    ensures meal.Some? && meal.value.original_price > meal.value.discount_price ==>
      r == meal.value.original_price - meal.value.discount_price
    ensures meal.None? || meal.value.original_price <= meal.value.discount_price ==> r == 0
  {
    if meal.Some? && meal.value.original_price - meal.value.discount_price > 0
    then meal.value.original_price - meal.value.discount_price
    else 0
  }

  /** The total saving over the completed orders, accumulated in order. */
  function MoneySaved(meals: seq<Option<MealPrices>>): (r: int)
    ensures r >= 0
    decreases |meals|
  {
    if meals == [] then 0 else MoneySaved(meals[..|meals| - 1]) + Saving(meals[|meals| - 1])
  }

  /** Orders without a positive saving leave the total unchanged, and the
      total is at least the saving of any one order. */
  lemma {:induction false} MoneySavedBoundsEach(meals: seq<Option<MealPrices>>, k: nat)
    requires k < |meals|
    ensures MoneySaved(meals) >= Saving(meals[k])
    decreases |meals|
  {
    if k < |meals| - 1 {
      MoneySavedBoundsEach(meals[..|meals| - 1], k);
    }
  }

  /** The impact figures of a consumer. A details error is returned as is.
      Otherwise each counter is the details column or 0, the money saved is
      accumulated from the completed orders (none when the orders query gave
      no rows) and the CO2 figure is 2.5 kg per meal saved. */
  method GetImpactStats(details: Result<Option<ConsumerDetails>>, orders: Option<seq<Option<MealPrices>>>)
    returns (r: Result<ImpactStats>)
    ensures details.Failure? ==> r == Failure(details.message)
    ensures details.Success? ==> r.Success?
    ensures r.Success? ==> r.value.money_saved == (if orders.Some? then MoneySaved(orders.value) else 0)
    ensures r.Success? ==> r.value.money_saved >= 0
    ensures r.Success? ==> r.value.co2_reduced == 2.5 * r.value.meals_saved as real
    ensures r.Success? && details.value.None? ==>
      r.value.meals_saved == 0 && r.value.meals_donated == 0 && r.value.loyalty_points == 0
    ensures r.Success? && details.value.Some? ==>
      r.value.meals_saved == OrZero(details.value.value.meals_saved) &&
      r.value.meals_donated == OrZero(details.value.value.meals_donated) &&
      r.value.loyalty_points == OrZero(details.value.value.loyalty_points)
  {
    if details.Failure? {
      return Failure(details.message);
    }
    var moneySaved := 0;
    if orders.Some? {
      var rows := orders.value;
      var i := 0;
      while i < |rows|
        invariant 0 <= i <= |rows|
        invariant moneySaved == MoneySaved(rows[..i])
      {
        assert rows[..i + 1][..i] == rows[..i];
        if rows[i].Some? {
          var savings := rows[i].value.original_price - rows[i].value.discount_price;
          if savings > 0 {
            moneySaved := moneySaved + savings;
          }
        }
        i := i + 1;
      }
      assert rows[..i] == rows;
    }
    var mealsSaved, mealsDonated, points := 0, 0, 0;
    if details.value.Some? {
      var d := details.value.value;
      mealsSaved, mealsDonated, points := OrZero(d.meals_saved), OrZero(d.meals_donated), OrZero(d.loyalty_points);
    }
    r := Success(ImpactStats(mealsSaved, mealsDonated, points, moneySaved, mealsSaved as real * 2.5));
  }

  // ---------------------------------------------------------------------
  // Flag toggles, user creation and the review lookup

  /** The single-column updates the toggles send. */
  datatype UserUpdate = SetActive(userId: string, is_active: bool)
  datatype MealUpdate = SetSoldOut(mealId: string, is_sold_out: bool)

  /** `toggleUserStatus(id, current)` writes the negation of the flag it is given. */
  function ToggleUserStatus(userId: string, currentStatus: bool): (r: UserUpdate)
    ensures r.userId == userId && r.is_active != currentStatus
  {
    SetActive(userId, !currentStatus)
  }

  /** `toggleAvailability(id, current)` writes the negation of the flag it is given. */
  function ToggleAvailability(mealId: string, currentStatus: bool): (r: MealUpdate)
    ensures r.mealId == mealId && r.is_sold_out != currentStatus
  {
    SetSoldOut(mealId, !currentStatus)
  }

  /** The row the backend holds after an update: matched by id. */
  function ApplyUserUpdate(u: User, upd: UserUpdate): (r: User)
    ensures r.id == u.id
    ensures u.id == upd.userId ==> r == u.(is_active := upd.is_active)
    ensures u.id != upd.userId ==> r == u
  {
    if u.id == upd.userId then u.(is_active := upd.is_active) else u
  }

  function ApplyMealUpdate(m: Meal, upd: MealUpdate): (r: Meal)
    ensures m.id == upd.mealId ==> r == m.(is_sold_out := upd.is_sold_out)
    ensures m.id != upd.mealId ==> r == m
  {
    if m.id == upd.mealId then m.(is_sold_out := upd.is_sold_out) else m
  }

  /** Toggling a user with its own current flag flips exactly that flag, and
      toggling again with the new flag restores the row. */
  lemma ToggleUserStatusFlips(u: User)
    ensures ApplyUserUpdate(u, ToggleUserStatus(u.id, u.is_active)) == u.(is_active := !u.is_active)
    ensures var once := ApplyUserUpdate(u, ToggleUserStatus(u.id, u.is_active));
      ApplyUserUpdate(once, ToggleUserStatus(once.id, once.is_active)) == u
  {
  }

  /** Toggling a meal with its own current flag flips exactly that flag, and
      toggling again with the new flag restores the row. */
  lemma ToggleAvailabilityFlips(m: Meal)
    ensures ApplyMealUpdate(m, ToggleAvailability(m.id, m.is_sold_out)) == m.(is_sold_out := !m.is_sold_out)
    ensures var once := ApplyMealUpdate(m, ToggleAvailability(m.id, m.is_sold_out));
      ApplyMealUpdate(once, ToggleAvailability(once.id, once.is_sold_out)) == m
  {
  }

  const CreateUserError := "Feature requires backend implementation to avoid admin logout."

  /** Creating a user from the client is not supported: every call fails. */
  function CreateUser(userData: User): (r: Outcome)
    ensures r.Fail? && r.message != ""
  {
    Fail(CreateUserError)
  }

  datatype ReviewRef = ReviewRef(id: string, order_id: string)

  /** The review lookup's answer, and whether a query was made at all. */
  datatype ReviewsLookup = ReviewsLookup(queried: bool, data: seq<ReviewRef>, error: Option<string>)

  /** No order ids means no query and an empty, error-free answer; otherwise
      the rows (or [] when none came back) with the query's error. */
  function GetMyReviewsForOrders(orderIds: seq<string>, response: Response<seq<ReviewRef>>): (r: ReviewsLookup)
    ensures r.queried <==> orderIds != []
    ensures orderIds == [] ==> r.data == [] && r.error.None?
    ensures orderIds != [] ==> r.error == response.error
    ensures orderIds != [] ==> r.data == response.data.GetOr([])
  {
    if |orderIds| == 0 then ReviewsLookup(false, [], None)
    else ReviewsLookup(true, response.data.GetOr([]), response.error)
  }
}
