# Ikram front end, modelled in Dafny

Ikram is a food-rescue web application. Restaurants list surplus meals at a
discount. Consumers browse, order and review them. Charities receive
donated orders. Administrators manage the user base. This project models the
client side of the application: the query helpers' post-processing of what
the backend returns (`src/lib/helpers/api.ts`), the shared record types, the
hash router and navigation, the authentication context and dialogs, and the
page components of each role. Each page is a class whose fields are the
component's state hooks. Its handlers are methods that take the backend's
answer as a parameter and update those fields.

Modelling conventions:

- Money is an integer number of cents. The averages shown on screen are
  `real`. Timestamps are integer milliseconds.
- Strings are `seq<char>`. Case folding is ASCII only, and trimming removes
  ASCII white space.
- A backend call becomes an `Outcome`, `Result` or `Response` parameter,
  and the request the handler sends is returned as a value. A timer is a
  field holding the pending action, plus a `TimerFired` method that runs it.
- `Lists` (`lists.dfy`) holds the shared `Filter`/`Count` vocabulary and
  its lemmas. `Wrappers` holds `Option`/`Result`/`Outcome`. `Strings`
  holds the ASCII string helpers.

Behaviour of the code that the contracts record as written:

- The bridge route of the router falls back to the home page whenever the
  URL carries a query string or a hash.
- The provider's `signOut` clears the user and the profile in memory only.
  The cached profile and the last fetched id stay until the backend's
  sign-out event arrives. When the backend call fails, that event never
  comes.
- The meal form starts with an empty pickup start time, and the time
  input is not required. Saving such a form fails before any request is
  sent, because the pickup timestamp built from it is not a valid date;
  the failure alert is shown and the form stays.
- Closing the order dialog does not cancel a pending close timer.
- After an optimistic status update on the restaurant orders page, if the
  update and then the reload both fail, the list keeps the unconfirmed
  status.
- The restaurant dashboard's unread badge is raised by inserts, but is not
  lowered by updates that mark a notification as read.
- The "sold today" count only counts orders whose joined meal comes back
  as an array. Its test against "canceled" compares a meal type with a
  value that is not a meal type, so it never excludes anything.

## Model

| member | source | states |
|---|---|---|
| Types.ParseRole | src/lib/helpers/types/index.ts:1 | a string is a role iff it is one of the four role names, and the parsed role prints back as that string |
| Types.RoleNameRoundTrip | src/lib/helpers/types/index.ts:1 | every role's name parses back to that role |
| Types.ParseStatus | src/lib/helpers/types/index.ts:3 | a string is an order status iff it is one of the five status names, and the parsed status prints back as it |
| Types.StatusNameRoundTrip | src/lib/helpers/types/index.ts:3 | every status's name parses back to that status |
| Api.ParseMealType | src/lib/helpers/types/index.ts:2 | a string is a meal type iff it is "individual" or "magic_box", and the parsed type prints back as it |
| Api.SumAmounts | src/lib/helpers/api.ts:188-191 | the `(sum + (amount \|\| 0))` reduction; nonnegative when every amount is |
| Api.SumAmountsAppend | src/lib/helpers/api.ts:188-191 | the sum over a concatenation is the sum of the sums |
| Api.SumAmountsIgnoresMissing | src/lib/helpers/api.ts:188-191 | rows with a missing amount contribute nothing: the sum equals the sum over the present amounts |
| Api.AdminRevenue | src/lib/helpers/api.ts:155-208 | a users error, then an orders error, is returned; otherwise the revenue is undefined exactly when no rows came back, and otherwise it is the sum of the amounts |
| Api.SaleAmounts | src/lib/helpers/api.ts:691-694 | the amounts summed for today's revenue are the orders' amounts, one per order and in order |
| Api.RestaurantDashboardStats | src/lib/helpers/api.ts:652-705 | a meals error, then an orders error, is returned as is; otherwise total meals is the row count, active meals is the count of rows neither sold out nor out of stock (at most the total), sold today is the number of orders whose joined meal is an array holding some type other than "canceled" (so at most the order count), and revenue is the sum of today's amounts |
| Api.ActivePlusInactiveIsTotal | src/lib/helpers/api.ts:664-667 | every meal row is active or inactive and never both: the two counts add up to the total |
| Api.SoldTodayNeedsArrayJoin | src/lib/helpers/api.ts:686-690 | when no joined meal comes back as an array, nothing is counted as sold today |
| Api.SoldTodayTypeTestVacuous | src/lib/helpers/api.ts:686-690 | when every joined type is a real meal type, an array join counts as sold iff it is non-empty, so the "canceled" test excludes nothing |
| Api.ToggleUserStatus | src/lib/helpers/api.ts:257-265 | the update is keyed by the user's id and writes the negation of the flag it is given |
| Api.ApplyUserUpdate | src/lib/helpers/api.ts:257-265 | the row with the matching id takes the new active flag; every other row is unchanged |
| Api.ToggleUserStatusFlips | src/lib/helpers/api.ts:257-265 | toggling a user with its own flag flips exactly that flag, and toggling twice restores the user |
| Api.CreateUser | src/lib/helpers/api.ts:293-302 | creating a user from the client always fails with a non-empty message |
| Api.Saving | src/lib/helpers/api.ts:428-437 | one completed order adds its price difference when that is positive and nothing otherwise (nothing without a joined meal); never negative |
| Api.MoneySaved | src/lib/helpers/api.ts:425-437 | the money saved over the completed orders is never negative |
| Api.MoneySavedBoundsEach | src/lib/helpers/api.ts:425-437 | the total saved is at least the saving of each single order |
| Api.GetImpactStats | src/lib/helpers/api.ts:394-452 | a details error is returned as is; otherwise each counter is its column or 0 (all 0 without a details row), the money saved is the accumulated saving (0 without order rows), and CO2 is 2.5 kg per meal saved |
| Api.GetCharityStats | src/lib/helpers/api.ts:522-544 | an error is returned as is; otherwise donations, meals received and people served all equal the row count, and the value received is the sum of the amounts |
| Api.GetDonations | src/lib/helpers/api.ts:547-577 | every returned row is kept, in order, tagged with quantity 1; no data gives an empty list; the error is passed through |
| Api.ToggleAvailability | src/lib/helpers/api.ts:714-720 | the update is keyed by the meal's id and writes the negation of the sold-out flag it is given |
| Api.ApplyMealUpdate | src/lib/helpers/api.ts:714-720 | the meal with the matching id takes the new sold-out flag; every other meal is unchanged |
| Api.ToggleAvailabilityFlips | src/lib/helpers/api.ts:714-720 | toggling a meal with its own flag flips exactly that flag, and toggling twice restores the meal |
| Api.GetMyReviewsForOrders | src/lib/helpers/api.ts:799-810 | a query is made iff there are order ids; with none the answer is empty and error-free; otherwise the error is passed through and missing data becomes an empty list |
| AdminUsers.CalculateStats | src/components/admin/AdminUsers.tsx:78-89 | the total is the list length, active plus inactive is the total, each role count is the number of users with that role and the four add up to the total, and active and inactive are the numbers of users with the flag set and clear |
| AdminUsers.RoleCountsSum | src/components/admin/AdminUsers.tsx:81-84 | every user has exactly one of the four roles: the role counts add up to the list length |
| AdminUsers.AdminUsersPage.constructor | src/components/admin/AdminUsers.tsx:28-53 | the page starts loading, with no users, no user being processed or edited, an empty consumer form, all roles shown and an empty search, and with stats that match the empty list |
| AdminUsers.AdminUsersPage.SetUsers | src/components/admin/AdminUsers.tsx:63-64 | every list update is followed by the statistics computed from the new list, so the statistics always describe the list |
| AdminUsers.AdminUsersPage.FetchUsers | src/components/admin/AdminUsers.tsx:56-71 | on data without error the list becomes the data; on an error or no data it is unchanged; loading ends; the stats always match the list |
| AdminUsers.FormOf | src/components/admin/AdminUsers.tsx:94-102 | the edit form takes the user's name, email and role, and the phone or "" when there is none |
| AdminUsers.AdminUsersPage.HandleEditClick | src/components/admin/AdminUsers.tsx:94-102 | the clicked user becomes the one being edited, the form is filled from it, and nothing else changes |
| AdminUsers.ApplyForm | src/components/admin/AdminUsers.tsx:118-120 | an edit replaces name, email, phone and role with the form's, and keeps id, activity and creation time |
| AdminUsers.FormRoundTrip | src/components/admin/AdminUsers.tsx:94-120 | saving an untouched form gives back the user unchanged (when the user has a phone) |
| AdminUsers.EditUser | src/components/admin/AdminUsers.tsx:118-120 | exactly the users with the edited id take the form; the list keeps its length and order |
| AdminUsers.EditKeepsActivity | src/components/admin/AdminUsers.tsx:118-123 | an edit leaves the total, active and inactive counts unchanged |
| AdminUsers.AdminUsersPage.HandleUpdateUser | src/components/admin/AdminUsers.tsx:105-133 | with no user being edited nothing is sent or changed; otherwise the user's id and the form are sent, the processing mark is cleared, success applies the edit and closes the dialog, and failure keeps list and dialog; the stats match the list |
| AdminUsers.ToggleActive | src/components/admin/AdminUsers.tsx:153-155 | exactly the users with the given id have their active flag flipped; the list keeps its length and order |
| AdminUsers.ToggleActiveTwice | src/components/admin/AdminUsers.tsx:153-155 | toggling the same id twice restores the list |
| AdminUsers.ToggleActiveKeepsRoles | src/components/admin/AdminUsers.tsx:153-157 | a toggle leaves the total and all four role counts unchanged |
| AdminUsers.ToggleActiveMovesOne | src/components/admin/AdminUsers.tsx:153-157 | with unique ids, toggling a listed user moves the active count by exactly one, down for an active user and up for an inactive one |
| AdminUsers.ToggleMovesOneActive | src/components/admin/AdminUsers.tsx:153-157 | with unique ids, toggling a listed user changes the count of active users by exactly one in the matching direction |
| AdminUsers.UniqueTail | src/components/admin/AdminUsers.tsx:153-155 | the tail of a list with unique ids has unique ids |
| AdminUsers.UnmatchedToggleIsIdentity | src/components/admin/AdminUsers.tsx:153-155 | toggling an id no user has changes nothing |
| AdminUsers.AdminUsersPage.HandleToggleStatus | src/components/admin/AdminUsers.tsx:135-164 | unconfirmed, nothing is sent or changed; confirmed, the negated flag is sent for the user's id and the processing mark is cleared; success flips that user's flag, and failure keeps the list; the stats match the list |
| AdminUsers.DeleteUser | src/components/admin/AdminUsers.tsx:179 | the result has exactly as many entries as the list has users with another id (so every copy is kept), holds no user with the deleted id and only users of the list |
| AdminUsers.DeleteKeepsOrder | src/components/admin/AdminUsers.tsx:179 | the remaining users keep their order |
| AdminUsers.DeleteKeepsAdmins | src/components/admin/AdminUsers.tsx:533-554 | since an admin has no delete button, deleting through it never lowers the admin count |
| AdminUsers.AdminUsersPage.HandleDelete | src/components/admin/AdminUsers.tsx:166-188 | a request is sent iff the deletion is confirmed; success removes the users with that id, and failure or no confirmation keeps the list; the processing mark is cleared; the stats match the list |
| AdminUsers.FilteredUsers | src/components/admin/AdminUsers.tsx:191-198 | the shown users are, in order, exactly those of the selected role whose name, email or phone contains the search text, ignoring case; the list is as long as the count of such users, so every copy is kept |
| AdminUsers.FilterNothing | src/components/admin/AdminUsers.tsx:191-198 | with all roles and an empty search every user is shown |
| AdminUsers.AdminUsersPage.Shown | src/components/admin/AdminUsers.tsx:191-198 | what is on screen is an ordered selection of the loaded users |
| RestaurantOrders.CalculateStats | src/components/restaurant/RestaurantOrders.tsx:73-80 | each counter is the number of orders with its status, and together with the donated orders the four counters account for every order |
| RestaurantOrders.StatusCountsSum | src/components/restaurant/RestaurantOrders.tsx:73-80 | every order has exactly one of the five statuses: the five counts add up to the list length |
| RestaurantOrders.StatsBound | src/components/restaurant/RestaurantOrders.tsx:73-80 | the four counters never exceed the list length, and they add up to it iff no order is donated |
| RestaurantOrders.GetReview | src/components/restaurant/RestaurantOrders.tsx:83-88 | a missing review gives none, a single review gives itself, and a list gives its first element or none when empty |
| RestaurantOrders.CalculateReviewStats | src/components/restaurant/RestaurantOrders.tsx:90-108 | the review count is the number of orders with a review; with none the average is 0; otherwise the average times the count is the sum of the ratings |
| RestaurantOrders.RatingSumBounds | src/components/restaurant/RestaurantOrders.tsx:99-102 | with every rating between 1 and 5, the rating sum lies between the review count and five times it |
| RestaurantOrders.AverageInRange | src/components/restaurant/RestaurantOrders.tsx:90-108 | with every rating between 1 and 5, a page with reviews shows an average between 1 and 5 |
| RestaurantOrders.FilteredOrders | src/components/restaurant/RestaurantOrders.tsx:182-184 | "all" shows every order; a status filter shows, in order, exactly the orders with that status, as many as there are |
| RestaurantOrders.SetStatus | src/components/restaurant/RestaurantOrders.tsx:112-116 | exactly the orders with the given id take the new status; the list keeps its length and order |
| RestaurantOrders.SetStatusIdempotent | src/components/restaurant/RestaurantOrders.tsx:112-116 | applying the same status update twice is the same as once |
| RestaurantOrders.SetStatusKeepsReviews | src/components/restaurant/RestaurantOrders.tsx:129-133 | a status change leaves the review statistics unchanged, which is why the handler recomputes only the status counters |
| RestaurantOrders.SetStatusKeepsReviewCounts | src/components/restaurant/RestaurantOrders.tsx:129-133 | a status change keeps the number of reviewed orders and the rating sum |
| RestaurantOrders.Transitions | src/components/restaurant/RestaurantOrders.tsx:402-447 | a pending order offers "ready" and "canceled", a ready order offers "completed", and every other status offers nothing |
| RestaurantOrders.TransitionsMoveForward | src/components/restaurant/RestaurantOrders.tsx:402-447 | every offered status is a later stage than the current one, and nothing leads back to pending |
| RestaurantOrders.TransitionsEnd | src/components/restaurant/RestaurantOrders.tsx:402-447 | a run of button clicks from pending is at most three statuses long, and the only three-status run is pending, ready, completed, which leaves no button |
| RestaurantOrders.StageAtLeastIndex | src/components/restaurant/RestaurantOrders.tsx:402-447 | along a run of clicks, the i-th status is at stage i or later |
| RestaurantOrders.TimeAgo | src/components/restaurant/RestaurantOrders.tsx:172-180 | ages under an hour are whole minutes, ages under a day are whole hours (1 to 23), and older ones are whole days (at least 1), each the floored quotient of the age |
| RestaurantOrders.AgoText | src/components/restaurant/RestaurantOrders.tsx:176-179 | the age reads "N mins ago", "N hours ago" or "N days ago" with N in decimal |
| RestaurantOrders.RestaurantOrdersPage.constructor | src/components/restaurant/RestaurantOrders.tsx:22-40 | the page starts loading, with no orders, zero counters and zero review statistics, showing all statuses |
| RestaurantOrders.RestaurantOrdersPage.FetchOrders | src/components/restaurant/RestaurantOrders.tsx:47-71 | loading ends; signed in and without error, the list becomes the data (empty when none) with matching statistics; otherwise list and statistics are unchanged |
| RestaurantOrders.RestaurantOrdersPage.HandleStatusUpdate | src/components/restaurant/RestaurantOrders.tsx:110-134 | success applies the new status with matching statistics; failure reloads the list, and if the reload also fails the optimistically updated list stays with the old statistics |
| RestaurantOrders.RestaurantOrdersPage.Shown | src/components/restaurant/RestaurantOrders.tsx:182-184 | what is on screen is an ordered selection of the loaded orders |
| RestaurantDashboard.DashboardPage.constructor | src/components/restaurant/RestaurantDashboard.tsx:30-60 | the page starts loading, with no meals and no notifications, the form hidden and clean, not submitting, and a badge that matches the empty feed |
| RestaurantDashboard.DashboardPage.FetchDashboardData | src/components/restaurant/RestaurantDashboard.tsx:72-104 | loading ends; without a profile a sign-out is requested and nothing is loaded; otherwise returned stats and meals replace the old ones, the feed becomes the returned notifications (empty when none), and the badge counts the unread ones; the form is untouched |
| RestaurantDashboard.DashboardPage.OnInsert | src/components/restaurant/RestaurantDashboard.tsx:111-114 | a new notification goes first in the feed, and the badge rises by one iff it is unread, so an accurate badge stays accurate |
| RestaurantDashboard.PrependUnread | src/components/restaurant/RestaurantDashboard.tsx:111-114 | prepending a notification raises the unread count by one iff it is unread |
| RestaurantDashboard.DashboardPage.OnUpdate | src/components/restaurant/RestaurantDashboard.tsx:115-118 | the notification with the same id is replaced in place, and the badge is left as it was |
| RestaurantDashboard.ReplaceById | src/components/restaurant/RestaurantDashboard.tsx:116 | every notification with the update's id becomes the update; the others and the feed's length and order stay |
| RestaurantDashboard.ReplaceByIdUnread | src/components/restaurant/RestaurantDashboard.tsx:115-118 | an update that keeps the read flag of the notification it replaces keeps the unread count, so the badge stays right |
| RestaurantDashboard.ReplaceMarksRead | src/components/restaurant/RestaurantDashboard.tsx:115-118 | with unique ids, an update marking an unread notification as read lowers the unread count by one, which the unchanged badge does not follow |
| RestaurantDashboard.DashboardPage.HandleReadingNotification | src/components/restaurant/RestaurantDashboard.tsx:249-255 | clicking a notification asks the backend to mark that id as read and changes nothing on the page |
| RestaurantDashboard.DashboardPage.HandleInputChange | src/components/restaurant/RestaurantDashboard.tsx:127-134 | an edited input replaces the form, which stays shown |
| RestaurantDashboard.DashboardPage.ResetForm | src/components/restaurant/RestaurantDashboard.tsx:136-150 | the form is cleared with the type back to individual, no meal is being edited, and the form is hidden; the rest of the page is unchanged |
| RestaurantDashboard.PriceText | src/components/restaurant/RestaurantDashboard.tsx:165-166 | a price is written in dollars as `toString` writes it: a whole number of dollars as its decimal digits, and a leading "-" exactly for a negative price |
| RestaurantDashboard.PriceTextCanonical | src/components/restaurant/RestaurantDashboard.tsx:165-166 | the written price holds a "." exactly when it is not a whole number of dollars, and then does not end in "0" |
| RestaurantDashboard.PriceTextRoundTrip | src/components/restaurant/RestaurantDashboard.tsx:165-166 | the written price reads back, as dollars with one or two digits of cents, to exactly the cents it was written from |
| Strings.NatToStringValue | src/components/ImpactProfile.tsx:123 | the decimal text of a count (no leading zero, by NatToString's own contract) reads back as the count |
| RestaurantDashboard.FormFromMeal | src/components/restaurant/RestaurantDashboard.tsx:153-171 | the form takes the meal's title, type and quantity, its prices written in dollars, its description and image or "" when missing, the given start time, and an empty end time |
| RestaurantDashboard.DashboardPage.HandleEditClick | src/components/restaurant/RestaurantDashboard.tsx:153-177 | the form is filled from the meal, that meal's id is being edited, and the form is shown |
| RestaurantDashboard.DashboardPage.ToggleAddMeal | src/components/restaurant/RestaurantDashboard.tsx:377-381 | the button flips whether the form is shown; closing resets it, and an opened form is a clean create form |
| RestaurantDashboard.FullDescription | src/components/restaurant/RestaurantDashboard.tsx:190-193 | without an end time the description is the typed one; with one the text " (Pickup until END)" is appended |
| RestaurantDashboard.FullDescriptionExtends | src/components/restaurant/RestaurantDashboard.tsx:190-193 | the typed description always leads the saved one, and is the whole of it iff no end time was entered |
| RestaurantDashboard.CommonData | src/components/restaurant/RestaurantDashboard.tsx:195-204 | the saved title, type and image are the form's, and the description is the full description |
| RestaurantDashboard.SaveRequestFor | src/components/restaurant/RestaurantDashboard.tsx:206-222 | an update of the edited meal is sent iff a non-empty id is being edited; otherwise a new meal of this restaurant that is not sold out is created; both carry the common data |
| RestaurantDashboard.EditThenSaveKeepsFields | src/components/restaurant/RestaurantDashboard.tsx:153-222 | saving an untouched edit form updates the meal under its own id with its own title, type, description and image |
| RestaurantDashboard.DashboardPage.HandleSave | src/components/restaurant/RestaurantDashboard.tsx:180-233 | without a profile only a sign-out is requested and the form stays; a start time that is not a valid "HH:MM" (the empty default included) makes the timestamp conversion throw, so nothing is sent, the failure alert is shown and the form stays; otherwise the request built from the form is sent, success resets the form and requests a reload, failure shows the alert and keeps the form; every request sent carries a valid start time, and submitting ends false |
| RestaurantDashboard.DashboardPage.HandleDelete | src/components/restaurant/RestaurantDashboard.tsx:236-241 | only a confirmed delete is sent, and it is always followed by a reload |
| RestaurantDashboard.DashboardPage.HandleToggleStatus | src/components/restaurant/RestaurantDashboard.tsx:244-247 | the negated sold-out flag is sent for the meal's id, and a reload follows |
| BrowsePage.BrowsePageState.constructor | src/components/BrowsePage.tsx:12-23 | the page starts loading with no meals and no error, an empty search, all types, available only, newest first, and no meal selected |
| BrowsePage.BrowsePageState.LoadMeals | src/components/BrowsePage.tsx:29-48 | loading ends and the error is cleared first; without a user nothing is loaded; an error is kept and leaves the meals; otherwise the meals become the data (empty when none); the filters and selection are untouched |
| BrowsePage.BrowsePageState.HandleMealClick | src/components/BrowsePage.tsx:50-57 | a signed-in user selects the meal and opens the order dialog; otherwise nothing changes |
| BrowsePage.Disabled | src/components/BrowsePage.tsx:260 | a card is disabled iff its meal is sold out or has a quantity of at most 0 |
| BrowsePage.BrowsePageState.ClickCard | src/components/BrowsePage.tsx:259-260 | a card of a sold-out or out-of-stock meal has no handler, so its click changes nothing; other cards behave as the meal click |
| BrowsePage.AvailableTypes | src/components/BrowsePage.tsx:60-63 | every meal type present in the list appears exactly once, and no other, in order of first appearance in the list |
| BrowsePage.DistinctTypes | src/components/BrowsePage.tsx:61-62 | the list's types, each once and only them, ordered by where each first appears in the list |
| BrowsePage.Haystack | src/components/BrowsePage.tsx:75-78 | the searched text holds the lower-cased title, description and restaurant name at their places, separated by single spaces, with a missing description or name as "" |
| BrowsePage.KeepMeal | src/components/BrowsePage.tsx:69-82 | a meal passes iff it is not excluded as sold out or out of stock when "available only" is set, has the chosen type unless the filter is "all", and contains the query in its searched text when the query is non-empty |
| BrowsePage.BlankSearchKeepsAll | src/components/BrowsePage.tsx:67-79 | a search of only white space filters nothing out |
| BrowsePage.Kept | src/components/BrowsePage.tsx:69-82 | the filtered list is, in order, exactly the meals that are available (when asked), of the chosen type, and whose lower-cased title, description and restaurant name contain the trimmed lower-cased search; its length is the count of such meals, so every copy is kept |
| BrowsePage.SavingsPct | src/components/BrowsePage.tsx:84-87 | a meal without a positive original price saves 0 percent |
| BrowsePage.SavingsPctInRange | src/components/BrowsePage.tsx:84-87 | a discount between 0 and the original price saves between 0 and 100 percent |
| BrowsePage.SortKey | src/components/BrowsePage.tsx:89-103 | each comparator as an ascending key: the discounted price for "price_low", its negation for "price_high", the negated savings percentage for "savings_high" and the negated creation time for "newest" |
| BrowsePage.SortKeyMeaning | src/components/BrowsePage.tsx:89-103 | in sorted position, "price_low" puts cheaper first, "price_high" dearer first, "savings_high" larger savings first, and "newest" later creation first |
| BrowsePage.Insert | src/components/BrowsePage.tsx:89-103 | inserting into a sorted list keeps it sorted and adds exactly that meal |
| BrowsePage.SortMeals | src/components/BrowsePage.tsx:89-103 | the sort returns a sorted permutation of its input |
| BrowsePage.InsertStable | src/components/BrowsePage.tsx:89-103 | inserting a meal puts it ahead of the meals sharing its key and keeps every key's meals in their order |
| BrowsePage.SortMealsStable | src/components/BrowsePage.tsx:89-103 | the sort is stable, as `Array.prototype.sort` is: for every key, the meals with that key come out in the order they went in |
| BrowsePage.FilteredMeals | src/components/BrowsePage.tsx:66-106 | the list shown is sorted by the chosen option and is a permutation of the filtered meals: every meal shown passes the filters, every meal passing them is shown, and the length is the count of passing meals |
| BrowsePage.FilteredMealsStable | src/components/BrowsePage.tsx:66-106 | meals that tie under the chosen order are shown in the order they were fetched |
| BrowsePage.FilteredMealsExclude | src/components/BrowsePage.tsx:69-82 | a meal shown is in stock and not sold out when "available only" is set, has the chosen type, and matches a non-empty search |
| BrowsePage.BrowsePageState.Reset | src/components/BrowsePage.tsx:191-197 | the reset button restores an empty search, all types, available only and newest first, and changes nothing else |
| BrowsePage.BrowsePageState.ResetShowsAvailableNewest | src/components/BrowsePage.tsx:191-197 | after a reset exactly the meals in stock and not sold out are shown, newest first |
| OrdersPage.OrdersPageState.constructor | src/components/OrdersPage.tsx:11-16 | the page starts loading, with no orders, no error and no reviewed order |
| OrdersPage.IsEligible | src/components/OrdersPage.tsx:43-45 | an order can be reviewed only when its status is completed or donated |
| OrdersPage.EligibleIds | src/components/OrdersPage.tsx:43-45 | the ids looked up are exactly those of the completed or donated orders, one per such order |
| OrdersPage.ReviewedIds | src/components/OrdersPage.tsx:52 | the reviewed set holds exactly the order ids of the reviews found |
| OrdersPage.ReviewedAfterLookup | src/components/OrdersPage.tsx:47-59 | a lookup error leaves nothing marked as reviewed; otherwise the reviewed set is the reviews' order ids |
| OrdersPage.NoEligibleNoneReviewed | src/components/OrdersPage.tsx:47-59 | with no completed or donated order no lookup is made and nothing is marked as reviewed |
| OrdersPage.OrdersPageState.LoadOrders | src/components/OrdersPage.tsx:23-62 | without a user nothing changes; a load error is shown and empties the orders and the reviewed set; otherwise the orders are the data (empty when none), the reviews are looked up for the eligible ids only, and loading ends |
| OrdersPage.RestaurantIdOf | src/components/OrdersPage.tsx:143-151 | the restaurant id is the first non-empty one of the meal's restaurant id, the joined restaurant's user id and its id; an order without a meal has none |
| OrdersPage.RestaurantIdFound | src/components/OrdersPage.tsx:143-151 | a restaurant id is found iff one of those three places holds a non-empty id |
| OrdersPage.CanReview | src/components/OrdersPage.tsx:158-160 | an order is reviewable iff it is eligible and a restaurant id is found for it |
| OrdersPage.ReviewControlFor | src/components/OrdersPage.tsx:158-163 | the card offers "Rate" iff the order can be reviewed and was not, shows "Rated" iff it can be reviewed and was, and shows nothing otherwise |
| OrdersPage.ReviewForm.constructor | src/components/OrdersPage.tsx:137-141 | the review form starts hidden, at rating 5 with an empty comment, not loading and without error |
| OrdersPage.ReviewForm.OpenReview | src/components/OrdersPage.tsx:305-307 | the "Rate" button shows the form |
| OrdersPage.ReviewForm.CloseReview | src/components/OrdersPage.tsx:165-170 | the form is hidden, the error cleared, and rating and comment are back to 5 and empty |
| OrdersPage.CommentToSend | src/components/OrdersPage.tsx:195 | a blank comment is left out; any other is sent trimmed, without white space at either end |
| Strings.TrimIsMaximal | src/components/OrdersPage.tsx:195 | the trimmed comment is the slice of the comment with only white space cut off on either side |
| OrdersPage.ReviewForm.SubmitReview | src/components/OrdersPage.tsx:172-207 | a missing user, then a missing restaurant id, then a rating outside 1 to 5 sets its own error and sends nothing; otherwise the review is sent for this order with the trimmed comment; success closes the form and asks for a reload; failure shows the error's message or a default |
| OrderFlowModal.Title | src/components/OrderFlowModal.tsx:138-141 | the header shows "THE CHOICE", "SELECT CHARITY", "PROCESSING..." or "SUCCESS!" for the four steps |
| OrderFlowModal.TitlesDistinct | src/components/OrderFlowModal.tsx:138-141 | each of the four steps shows its own header text |
| OrderFlowModal.OrderFlow.constructor | src/components/OrderFlowModal.tsx:18-22 | the dialog starts at the choice, with no charity chosen or loaded, not loading, without error and with no timer pending |
| OrderFlowModal.OrderFlow.HandleOrder | src/components/OrderFlowModal.tsx:26-63 | signed out, the dialog goes to processing with the success timer pending and sends nothing; signed in, the purchase is sent and loading ends; success shows the success step with the closing timer pending; failure returns to the choice with the error's message or "Failed to complete order" |
| OrderFlowModal.OrderFlow.HandleDonateClick | src/components/OrderFlowModal.tsx:65-85 | loading ends; signed out, the charity list is shown; a failed lookup shows "Failed to load charities" and keeps the step; otherwise the returned charities (none when empty) are stored and the list is shown |
| OrderFlowModal.OrderFlow.SelectCharity | src/components/OrderFlowModal.tsx:236 | clicking a listed charity chooses its user id |
| OrderFlowModal.OrderFlow.HandleDonate | src/components/OrderFlowModal.tsx:87-122 | without a chosen charity nothing happens; signed out, the dialog goes to processing with the success timer pending; signed in, the donation of this meal to the chosen charity is sent; success shows the success step with the closing timer pending; failure returns to the charity list with the error's message or "Failed to donate meal" |
| OrderFlowModal.OrderFlow.HandleClose | src/components/OrderFlowModal.tsx:124-129 | the dialog returns to the choice with no charity chosen and no error, and its owner is asked to close; a pending timer stays pending |
| OrderFlowModal.OrderFlow.TimerFired | src/components/OrderFlowModal.tsx:30-35 | the short timer shows the success step and leaves the closing timer pending; the closing timer reports success and then closes the dialog as the close button does; with no timer nothing happens |
| AuthModal.Title | src/components/AuthModal.tsx:37-42 | the heading is "SIGN IN", "SIGN UP" or "FORGOT PASSWORD" according to the mode alone |
| AuthModal.SubmitLabel | src/components/AuthModal.tsx:44-49 | the submit button reads "SIGN IN", "CREATE ACCOUNT" or "SEND RESET LINK" according to the mode alone |
| AuthModal.ModeOfSubmitLabel | src/components/AuthModal.tsx:44-49 | a label read back gives the mode whose submit button shows it, and none when no mode shows it |
| AuthModal.LabelsIdentifyMode | src/components/AuthModal.tsx:37-49 | the title and the submit label each tell the three modes apart, and reading a mode's label back gives that mode |
| AuthModal.FooterLinks | src/components/AuthModal.tsx:318-351 | sign-in offers "Sign up" and "Forgot password?", sign-up offers "Sign in", forgot offers "Back to Sign in"; no link leads to the current mode, and only sign-in leads to the forgot mode |
| AuthModal.OptionalField | src/components/AuthModal.tsx:92 | a blank phone is left out; any other is sent trimmed |
| AuthModal.AuthForm.constructor | src/components/AuthModal.tsx:15-31 | the dialog starts in sign-in mode as a consumer, with every field empty, not loading, no message, no error and no timer pending |
| AuthModal.AuthForm.HandleClose | src/components/AuthModal.tsx:56-60 | the dialog returns to sign-in with no error or message, and its owner is asked to close |
| AuthModal.AuthForm.GoToSignIn | src/components/AuthModal.tsx:62-65 | the mode becomes sign-in, and error and message are cleared |
| AuthModal.AuthForm.GoToSignUp | src/components/AuthModal.tsx:67-70 | the mode becomes sign-up, and error and message are cleared |
| AuthModal.AuthForm.GoToForgot | src/components/AuthModal.tsx:72-76 | the mode becomes forgot, the trimmed sign-in email is carried over, and error and message are cleared |
| AuthModal.AuthForm.FollowLink | src/components/AuthModal.tsx:318-351 | following a footer link always changes the mode, to the link's target, and clears error and message; the email is carried over only into the forgot mode |
| AuthModal.AuthForm.HandleSubmit | src/components/AuthModal.tsx:78-119 | a submit while loading is ignored; otherwise loading starts iff a request is sent and error and message are cleared; sign-up and sign-in send the trimmed fields; forgot mode with a blank email shows "Please enter your email." and sends nothing, and otherwise sends a reset to the trimmed email with the bridge page as the return address |
| AuthModal.AuthForm.Settle | src/components/AuthModal.tsx:94-129 | loading ends; a failure shows its message or "An error occurred"; a sign-up success shows the verification notice with success pending; a sign-in success reports success at once; a reset success shows the neutral notice with the return to sign-in pending |
| AuthModal.AuthForm.TimerFired | src/components/AuthModal.tsx:98-124 | the timer is spent; success is reported iff the sign-up timer was pending; the reset timer returns the dialog to sign-in with error and message cleared |
| ResetPassword.CanSubmit | src/components/ResetPassword.tsx:11-13 | the form may be submitted iff the new password has at least eight characters and the confirmation equals it |
| ResetPassword.CanSubmitMeans | src/components/ResetPassword.tsx:11-13 | a submittable form has a confirmation of at least eight characters; a password differing from its confirmation, or shorter than eight characters, cannot be submitted |
| ResetPassword.ScreenFor | src/components/ResetPassword.tsx:77-82 | the password form is shown exactly when the page is ready; otherwise the page asks for the reset link |
| ResetPassword.SubmitDisabled | src/components/ResetPassword.tsx:119 | the button is enabled iff the page is not loading and the form can be submitted |
| ResetPassword.ResetPasswordPage.constructor | src/components/ResetPassword.tsx:5-9 | the page starts not ready, with empty fields, not loading and with no message |
| ResetPassword.ResetPasswordPage.OnAuthEvent | src/components/ResetPassword.tsx:16-28 | a recovery event makes the page ready and clears the message; a sign-in with a session makes it ready; any other event changes nothing |
| ResetPassword.ResetPasswordPage.OnGetSession | src/components/ResetPassword.tsx:30-33 | the page becomes ready when a session comes back without error, and otherwise stays as it was |
| ResetPassword.ResetPasswordPage.Submit | src/components/ResetPassword.tsx:40-65 | the new password is sent iff the form can be submitted; an invalid form only shows the rule; success signs out, shows the success notice and clears both fields; failure shows the error's message or "Failed to update password." and keeps the fields; loading ends after a send |
| AuthContext.CachedProfile | src/context/authContext.tsx:28-32 | the profile on start is the cached entry when there is one, and none otherwise |
| AuthContext.UseAuth | src/context/authContext.tsx:143-149 | outside a provider the hook fails with its message; inside, it returns the provided value |
| AuthContext.AuthProvider.constructor | src/context/authContext.tsx:26-36 | the provider starts loading, with no session user, nothing fetched yet, and the cached profile (when any) as its profile, so cache and memory agree |
| AuthContext.AuthProvider.UpdateProfile | src/context/authContext.tsx:39-47 | the profile in memory and the cached entry become the given profile; clearing it removes the cache entry and forgets the last fetched id |
| AuthContext.AuthProvider.FetchProfile | src/context/authContext.tsx:49-67 | without force, a fetch of the id fetched last is skipped; otherwise a row returned without error becomes the cached profile and its id is remembered, an error or an empty answer changes neither, and loading ends |
| AuthContext.AuthProvider.RefreshProfile | src/context/authContext.tsx:69-72 | without a user nothing happens; otherwise the user's profile is fetched even if it was fetched before, loading ends, a row returned without error becomes the profile and the cache entry and its id is remembered, and an error or an empty answer leaves the profile, the cache and the last fetched id as they were |
| AuthContext.AuthProvider.OnInitialSession | src/context/authContext.tsx:76-83 | with a session its user is set and the profile fetched unless that id was fetched last (a skipped fetch changes neither the profile, the cache, the last fetched id nor loading); a fetch ends loading, a row returned without error becomes the profile and the cache entry and its id is remembered, and an error or an empty answer leaves the profile, the cache and the last fetched id as they were; without a session loading just ends |
| AuthContext.AuthProvider.OnAuthStateChange | src/context/authContext.tsx:88-104 | a sign-out event clears the user, the profile, the cache entry and the last fetched id, and ends loading; another event carrying a user sets it and fetches its profile unless that id was fetched last, with the same outcome as the initial session's fetch (skipped: nothing else changes; fetched: loading ends, a row without error becomes the profile and cache entry and its id is remembered, an error or empty answer changes none of them); an event without a user changes nothing |
| AuthContext.AuthProvider.SignOut | src/context/authContext.tsx:111-132 | whether the backend call succeeds or fails, the user and profile are cleared and loading ends; a cached profile is left behind, so cache and memory then disagree |
| Navigation.NavItemsForRole | src/components/Navigation.tsx:54-85 | a consumer gets home, browse and impact; a restaurant its dashboard and orders; a charity home and donations; an admin the dashboard, users, meals and orders; any other role name the guest links plus "reset-password" |
| Navigation.NavItems | src/components/Navigation.tsx:109-115 | a signed-out visitor gets the guest links, a signed-in user without a loaded profile gets none, and otherwise the links follow the profile's role |
| Navigation.UserMenuItems | src/components/Navigation.tsx:89-107 | the user menu is empty unless signed in with a profile; a consumer gets "My Impact" and orders, a restaurant or charity its profile page, an admin the settings, and any other role name the plain profile entry |
| Navigation.NavListsDistinct | src/components/Navigation.tsx:51-115 | for every role name, neither list names a page twice |
| Navigation.RoleItemsDistinct | src/components/Navigation.tsx:54-85 | the links of any role name open pairwise different pages |
| Navigation.AtMostOneActive | src/components/Navigation.tsx:21 | in a list without repeated pages at most one link is highlighted, whatever the current page |
| Navigation.TypedRolesSkipDefault | src/components/Navigation.tsx:78-84 | a stored role is one of the four names, so it never gets the default lists or the "reset-password" link |
| App.ParsePage | src/App.tsx:45-48 | the page is never empty: the first "#/" is cut out of the hash and what is left is the page, or home when nothing is left; a hash starting with "#/" names the page after it, an empty hash means home, and a hash without "#/" is the page name as it stands |
| App.NavigateRoundTrip | src/App.tsx:55-58 | navigating to a page and reading the hash back gives that page, and home for the empty name |
| App.BridgeRedirect | src/App.tsx:36-41 | a redirect happens iff the path is the bridge path, and it leads to the reset route followed by the query and the hash |
| App.FragmentOf | src/App.tsx:36-41 | the fragment of a URL is everything from its first '#', or nothing when it has none |
| App.BridgeRoute | src/App.tsx:36-53 | after the bridge redirect the page read back is "reset-password" followed by the query and hash, and the reset page is shown iff both are empty |
| App.RenderPage | src/App.tsx:73-177 | a page without a view of its own shows the home layout; exactly the three unfinished admin pages show a placeholder titled by their upper-cased name after "admin-"; exactly "reset-password" shows the reset page |
| App.PlaceholderTitle | src/App.tsx:84-105 | the placeholder of "admin-NAME" is titled NAME in upper case |
| App.NavTargetsAreRouted | src/App.tsx:73-177 | every link and menu entry of a stored role opens home or a page with a view of its own |
| App.AppState.constructor | src/App.tsx:28-53 | the shell reads the page from the hash on start, with the sign-in dialog closed |
| App.AppState.OnHashChange | src/App.tsx:44-53 | the page is re-read from the new hash |
| App.AppState.HandleNavigate | src/App.tsx:55-58 | the hash becomes the page's route and the current page follows it, so a non-empty name becomes the current page |
| App.AppState.OpenAuthModal | src/App.tsx:145-149 | the call-to-action opens the sign-in dialog |
| App.AppState.HandleAuthSuccess | src/App.tsx:61-71 | the dialog closes; an admin profile is taken to the admin dashboard, and any other profile, or none, stays on the current page |
| ImpactProfile.CeilDiv30 | src/components/ImpactProfile.tsx:53 | the rounded-up thirtieth of the target: thirty of it reach the target, and thirty of one less do not |
| ImpactProfile.Step | src/components/ImpactProfile.tsx:53 | the amount added per tick is at least 1, and thirty of it reach a positive target |
| ImpactProfile.AnimateCounter | src/components/ImpactProfile.tsx:45-63 | the values shown end at the target (a zero or negative target shows only the target); every earlier value is the step times the tick number and stays below the target; for a positive target there are enough ticks that the steps reach it (so every multiple of the step below the target is shown) and at most thirty |
| ImpactProfile.TicksBound | src/components/ImpactProfile.tsx:53-62 | when thirty steps reach the target, a tick count whose steps stay below it is under thirty |
| ImpactProfile.ImpactProfilePage.constructor | src/components/ImpactProfile.tsx:9-14 | the page starts loading with every figure at zero |
| ImpactProfile.ImpactProfilePage.LoadStats | src/components/ImpactProfile.tsx:25-43 | loading ends; with a user and statistics both counters end at their targets and money, CO2 and points are set directly; otherwise no figure changes |
| ImpactProfile.Unlocked | src/components/ImpactProfile.tsx:65-94 | a badge is unlocked iff the meal count reaches its threshold of 1, 10, 50 or 100 |
| ImpactProfile.UnlockedMonotone | src/components/ImpactProfile.tsx:65-94 | a larger meal count never locks a badge, and an unlocked badge has every earlier badge unlocked |
| ImpactProfile.PaddedCount | src/components/ImpactProfile.tsx:123 | the count is shown as its decimal form preceded by zeros up to at least three characters, and only digits for a non-negative count |
| ReviewDisplay.ViewReview | src/components/restaurant/ReviewDisplay.tsx:17-83 | with no review only the placeholder is shown; otherwise the reviewer's name, the stars of its rating and its comment |
| ReviewDisplay.ReviewerName | src/components/restaurant/ReviewDisplay.tsx:49 | the reviewer's name when present and non-empty, and "Anonymous Customer" otherwise |
| ReviewDisplay.Stars | src/components/restaurant/ReviewDisplay.tsx:34-42 | five stars, of which star i is filled iff i is below the rating |
| ReviewDisplay.FilledPrefixCount | src/components/restaurant/ReviewDisplay.tsx:34-42 | a row whose first m stars are exactly the filled ones has m filled stars |
| ReviewDisplay.FilledStars | src/components/restaurant/ReviewDisplay.tsx:34-42 | the number of filled stars is the rating clamped to 0..5 |
| ReviewDisplay.ViewComment | src/components/restaurant/ReviewDisplay.tsx:63-82 | a missing or empty comment is not shown; one of at most 150 characters is shown whole; a longer one is shown whole with "Show Less" when expanded, and cut to 150 characters plus "..." with "Read More" otherwise |
| ReviewDisplay.ReviewPanelState.constructor | src/components/restaurant/ReviewDisplay.tsx:15 | a long comment starts collapsed |
| ReviewDisplay.ReviewPanelState.ToggleExpanded | src/components/restaurant/ReviewDisplay.tsx:71 | the Read More / Show Less button flips the expanded flag |
| ReviewDisplay.StarFill | src/components/restaurant/ReviewDisplay.tsx:95 | each summary star is filled between 0 and 1; star i is full iff the rating reaches i + 1 and empty iff the rating is at most i |
| ReviewDisplay.FillsAddUp | src/components/restaurant/ReviewDisplay.tsx:93-118 | the five fills add up to the average rating clamped to 0..5 |
| ReviewDisplay.ReviewLabel | src/components/restaurant/ReviewDisplay.tsx:131 | "review" for exactly one review, "reviews" otherwise |
| CharityDashboard.CharityDashboardPage.constructor | src/components/charity/CharityDashboard.tsx:12-24 | the page starts loading, with zero statistics, no donations, an empty mission and edit text, and not editing |
| CharityDashboard.CharityDashboardPage.LoadDashboard | src/components/charity/CharityDashboard.tsx:27-71 | without a profile nothing changes; otherwise loading ends, returned statistics replace the old ones, a non-empty mission statement replaces both the mission and the edit text, and the donation rows are always replaced by the formatted query result; outside edit mode the edit text stays equal to the mission |
| CharityDashboard.HasMission | src/components/charity/CharityDashboard.tsx:41 | the fetched profile carries a non-empty mission statement, the condition for syncing the mission and the edit text |
| CharityDashboard.FormatDonation | src/components/charity/CharityDashboard.tsx:53-64 | a row keeps the order's id, status and amount, takes the donor's name or "Anonymous" when it is missing or empty, and a quantity of 1 when the quantity is 0 |
| CharityDashboard.FormatDonations | src/components/charity/CharityDashboard.tsx:53-64 | each donation maps to one row, in the same order |
| CharityDashboard.FormattedRowsCountOne | src/components/charity/CharityDashboard.tsx:47-65 | the rows built from the donation query are one per returned order, with its id and quantity 1 |
| CharityDashboard.UpcomingPickups | src/components/charity/CharityDashboard.tsx:97 | the upcoming pickups are, in order, exactly the rows with status "ready", as many as there are |
| CharityDashboard.PickupsAndCollectedSplit | src/components/charity/CharityDashboard.tsx:97 | every row is either an upcoming pickup or not ready, never both |
| CharityDashboard.RowAction | src/components/charity/CharityDashboard.tsx:305-313 | a row offers "Mark as Collected" iff it is ready, and shows "Collected" otherwise |
| CharityDashboard.MissionOrEmpty | src/components/charity/CharityDashboard.tsx:92 | a null mission reads as "" |
| CharityDashboard.MissionShown | src/components/charity/CharityDashboard.tsx:220 | the mission is shown when it is non-empty, and the prompt to add one otherwise |
| CharityDashboard.CharityDashboardPage.StartEditing | src/components/charity/CharityDashboard.tsx:223 | the edit button enters edit mode |
| CharityDashboard.CharityDashboardPage.EditText | src/components/charity/CharityDashboard.tsx:194-196 | typing in edit mode replaces the edit text |
| CharityDashboard.CharityDashboardPage.HandleSaveMission | src/components/charity/CharityDashboard.tsx:75-88 | without a profile nothing happens; otherwise the edit text is sent; success makes it the mission and leaves edit mode; failure alerts and changes nothing |
| CharityDashboard.CharityDashboardPage.HandleCancelEdit | src/components/charity/CharityDashboard.tsx:91-94 | cancelling restores the edit text to the mission (or "") and leaves edit mode |
| CtaSection.HandleButtons | src/components/CTASection.tsx:11-33 | the restaurant button alerts a signed-in visitor whose role is not restaurant and prompts everyone else; the consumer button prompts a visitor without a profile and alerts everyone else; without a prompt handler a prompt does nothing |
| CtaSection.PromptOnlyWhenSignedOutOrRestaurant | src/components/CTASection.tsx:11-33 | a click prompts sign-in iff the visitor has no profile or is a restaurant on the restaurant button, and alerts exactly when it does not prompt |

## Left out
- Backend calls: table queries, the `complete_purchase` and `donate_meal` RPCs, the auth SDK and the realtime channel are code outside this repository. Each call's success or failure, and the rows it returns, are parameters. Requests are returned as values.
- The join shape of backend rows is not modelled in general. Only the fields the client reads are kept, with "missing" as `Option`.
- `src/components/admin/AdminDashboard.tsx`, `src/components/restaurant/RestaurantProfile.tsx` and `src/components/charity/CharityProfile.tsx` are not part of this model. They only copy fetched rows into display or form state.
- Static and rendering-only components (marketing sections, loading spinner), styling, JSX layout, the backend client set-up and environment typing are not part of this model.
- Real time is not modelled. Timers and intervals are a stored "pending" field plus an explicit tick or fire method, and elapsed time and timestamps are integer milliseconds.
- The order dialog keeps a single pending-timer field. It does not model several timers running at once.
- React scheduling is not modelled: batching, stale closures and memo dependency lists. Examples are the stale `orders` list read after a status update, and `sortBy` missing from the browse memo's dependencies. Each handler is one atomic sequential step over the current state. Hooks declared after an early return are not modelled either.
- Date and locale formatting (`toLocale*`, ISO timestamp composition, `new Date` parsing) is left out. Dates are integers, and sorting by date compares those integers.
- Floating point is left out. Prices and amounts are integer cents, and averages, percentages and star fills are `real`. `toFixed` rounding, the displayed discount percentage and the tree estimate are not modelled.
- Lower-casing folds ASCII letters only and `trim` strips ASCII white space. Unicode case folding and UTF-16 code-unit lengths are not modelled.
- The profile cache is an optional profile value. JSON serialisation and parse failures of the stored entry are not modelled.
- Field setters and UI-only toggles are not modelled: the mobile menu, the QR display, open dropdowns and typing into most form fields. Exceptions are the edit and comment fields whose values the handlers read.
- `window.scrollTo` and `console` output are not modelled. The admin handlers' alert messages are left out, and so is the navigation done by the sign-out buttons in the navigation bar and the dashboards.
- AdminUsers.AdminUsersPage.HandleToggleStatus: `processingId` is modelled only as cleared at the end of a request. Its value while the request is in flight is not observable in a one-step handler.
- RestaurantDashboard.DashboardPage.HandleSave: the pickup timestamp is today's date joined to the start time and converted to ISO form. The model checks that the start time is a clock time, which is when that conversion succeeds, and then sends the start time text in place of the timestamp; and it sends the price and quantity fields as text rather than parsed numbers.
- ImpactProfile.ImpactProfilePage.LoadStats: the `refreshProfile` call made while loading is not modelled, since it only refreshes the shared profile.
- Api.SumAmounts: its own contract states only nonnegativity. Its meaning is given by Api.SumAmountsAppend and Api.SumAmountsIgnoresMissing.
- Api.MoneySaved: its own contract states only nonnegativity. Api.MoneySavedBoundsEach adds that each order's saving is bounded by the total.
