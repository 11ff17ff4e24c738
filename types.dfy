/** The records the front end exchanges with its backend (users, meals,
    orders, reviews, notifications) and the literal unions that tag them.
    Timestamps are integers (milliseconds), prices integer cents. */
module Types {
  import opened Wrappers

  /** A user's role: exactly one of four. */
  datatype UserRole = Admin | Consumer | Restaurant | Charity

  datatype MealType = Individual | MagicBox

  /** An order's status: exactly one of five. */
  datatype OrderStatus = Pending | Completed | Canceled | Donated | Ready

  /** The browse page's sort choices. */
  datatype SortOption = Newest | PriceLow | PriceHigh | SavingsHigh

  /** The browse page's type filter: "all" or one meal type. */
  datatype TypeFilter = AllTypes | OnlyType(mealType: MealType)

  function RoleName(r: UserRole): string {
    match r
    case Admin => "admin"
    case Consumer => "consumer"
    case Restaurant => "restaurant"
    case Charity => "charity"
  }

  /** Reads a role name; only the four literal names are roles. */
  function ParseRole(s: string): (r: Option<UserRole>)
    ensures r.Some? <==> s in {"admin", "consumer", "restaurant", "charity"}
    ensures r.Some? ==> RoleName(r.value) == s
  {
    if s == "admin" then Some(Admin)
    else if s == "consumer" then Some(Consumer)
    else if s == "restaurant" then Some(Restaurant)
    else if s == "charity" then Some(Charity)
    else None
  }

  lemma RoleNameRoundTrip(r: UserRole)
    ensures ParseRole(RoleName(r)) == Some(r)
  {
  }

  function MealTypeName(t: MealType): string {
    match t
    case Individual => "individual"
    case MagicBox => "magic_box"
  }

  function StatusName(s: OrderStatus): string {
    match s
    case Pending => "pending"
    case Completed => "completed"
    case Canceled => "canceled"
    case Donated => "donated"
    case Ready => "ready"
  }

  /** Reads a status name; only the five literal names are statuses. */
  function ParseStatus(s: string): (r: Option<OrderStatus>)
    ensures r.Some? <==> s in {"pending", "completed", "canceled", "donated", "ready"}
    ensures r.Some? ==> StatusName(r.value) == s
  {
    if s == "pending" then Some(Pending)
    else if s == "completed" then Some(Completed)
    else if s == "canceled" then Some(Canceled)
    else if s == "donated" then Some(Donated)
    else if s == "ready" then Some(Ready)
    else None
  }

  lemma StatusNameRoundTrip(s: OrderStatus)
    ensures ParseStatus(StatusName(s)) == Some(s)
  {
  }

  /** A row of the users table. The phone is optional. */
  datatype User = User(
    id: string,
    email: string,
    name: string,
    phone: Option<string>,
    role: UserRole,
    is_active: bool,
    created_at: int)

  /** The restaurant joined onto a meal; `user_id` is present when the join
      went through the restaurant details table. */
  datatype JoinedRestaurant = JoinedRestaurant(id: string, user_id: Option<string>, name: Option<string>)

  /** A meal: description and image are optional, prices, quantity and the
      sold-out flag always present. */
  datatype Meal = Meal(
    id: string,
    restaurant_id: string,
    title: string,
    description: Option<string>,
    original_price: int,
    discount_price: int,
    quantity: int,
    pickup_window: int,
    mealType: MealType,
    image_url: Option<string>,
    is_sold_out: bool,
    created_at: int,
    restaurant: Option<JoinedRestaurant>)

  datatype Review = Review(
    id: string,
    consumer_id: string,
    restaurant_id: string,
    rating_value: int,
    comment: Option<string>,
    created_at: int,
    order_id: string,
    consumerName: Option<string>)

  /** The review embedded in an order row: absent (or null), one review, or
      an array of reviews. */
  datatype ReviewField = NoReview | Single(review: Review) | Many(reviews: seq<Review>)

  datatype Order = Order(
    id: string,
    consumer_id: string,
    meal_id: string,
    charity_id: Option<string>,
    status: OrderStatus,
    total_amount: int,
    created_at: int,
    meal: Option<Meal>,
    review: ReviewField)

  datatype Notification = Notification(
    id: string,
    user_id: string,
    message: string,
    is_read: bool,
    created_at: int)

  /** The charity-specific columns of a charity account. */
  datatype CharityDetails = CharityDetails(
    user_id: string,
    registration_number: Option<string>,
    mission_statement: Option<string>,
    is_verified: bool)
}
