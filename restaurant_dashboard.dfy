/** The restaurant dashboard: the notification feed with its unread badge,
    the add/edit meal form and the save, delete and availability handlers. */
module RestaurantDashboard {
  import opened Wrappers
  import opened Strings
  import opened Lists
  import opened Types
  import Api

  predicate IsUnread(n: Notification) {
    !n.is_read
  }

  /** The realtime update applied to the feed: every notification with the
      same id is replaced where it stands. */
  function ReplaceById(feed: seq<Notification>, n: Notification): (r: seq<Notification>)
    ensures |r| == |feed|
    ensures forall i :: 0 <= i < |feed| ==> r[i] == if feed[i].id == n.id then n else feed[i]
  {
    seq(|feed|, i requires 0 <= i < |feed| => if feed[i].id == n.id then n else feed[i])
  }

  /** Prepending adds one to the unread count exactly when the new
      notification is unread. */
  lemma PrependUnread(feed: seq<Notification>, n: Notification)
    ensures Count([n] + feed, IsUnread) == Count(feed, IsUnread) + (if n.is_read then 0 else 1)
  {
    FilterCons(n, feed, IsUnread);
  }

  /** Replacing a notification by one with the same read flag keeps the
      unread count; replacing an unread one by a read one (with unique ids)
      lowers it by one, which the badge does not follow. */
  lemma {:induction false} ReplaceByIdUnread(feed: seq<Notification>, n: Notification)
    requires forall i :: 0 <= i < |feed| && feed[i].id == n.id ==> feed[i].is_read == n.is_read
    ensures Count(ReplaceById(feed, n), IsUnread) == Count(feed, IsUnread)
    decreases |feed|
  {
    if feed != [] {
      var r := ReplaceById(feed, n);
      assert r[1..] == ReplaceById(feed[1..], n);
      ReplaceByIdUnread(feed[1..], n);
      assert IsUnread(r[0]) == IsUnread(feed[0]);
    }
  }

  /** Marking a listed unread notification as read through an update leaves
      one unread notification fewer in the feed. */
  lemma {:induction false} ReplaceMarksRead(feed: seq<Notification>, k: nat)
    requires k < |feed| && !feed[k].is_read
    requires forall i, j :: 0 <= i < j < |feed| ==> feed[i].id != feed[j].id
    ensures Count(ReplaceById(feed, feed[k].(is_read := true)), IsUnread) == Count(feed, IsUnread) - 1
    decreases |feed|
  {
    var n := feed[k].(is_read := true);
    var r := ReplaceById(feed, n);
    assert r[1..] == ReplaceById(feed[1..], n);
    if k == 0 {
      ReplaceByIdUnread(feed[1..], n);
    } else {
      ReplaceMarksRead(feed[1..], k - 1);
      assert r[0] == feed[0];
    }
  }

  /** The meal form: every input holds text; the type is a select. */
  datatype MealForm = MealForm(
    title: string,
    description: string,
    original_price: string,
    discount_price: string,
    quantity: string,
    pickup_time_start: string,
    pickup_time_end: string,
    image_url: string,
    mealType: MealType)

  const EmptyForm := MealForm("", "", "", "", "", "", "", "", Individual)

  /** The description saved with a meal: the typed description, followed by
      " (Pickup until END)" when an end time was entered. */
  function FullDescription(description: string, pickupEnd: string): (r: string)
    ensures pickupEnd == "" ==> r == description
    ensures pickupEnd != "" ==> r == description + " (Pickup until " + pickupEnd + ")"
  {
    if pickupEnd != "" then description + " (Pickup until " + pickupEnd + ")" else description
  }

  /** The typed description always leads the saved one, and is the whole of it
      iff no end time was entered. */
  lemma FullDescriptionExtends(description: string, pickupEnd: string)
    ensures IsPrefix(description, FullDescription(description, pickupEnd))
    ensures FullDescription(description, pickupEnd) == description <==> pickupEnd == ""
  {
    var r := FullDescription(description, pickupEnd);
    if pickupEnd != "" {
      assert r[..|description|] == description;
      assert |r| > |description|;
    }
  }

  function DigitValue(c: char): int {
    c as int - '0' as int
  }

  predicate IsDigitChar(c: char) {
    '0' <= c <= '9'
  }

  /** A start time the pickup timestamp can be built from: a time input
      holds either "" or "HH:MM", and only a real clock time gives a valid
      date once today's date and ":00" are joined to it. */
  predicate ValidStartTime(t: string) {
    |t| == 5 && IsDigitChar(t[0]) && IsDigitChar(t[1]) && t[2] == ':' &&
    IsDigitChar(t[3]) && IsDigitChar(t[4]) &&
    DigitValue(t[0]) * 10 + DigitValue(t[1]) <= 23 &&
    DigitValue(t[3]) * 10 + DigitValue(t[4]) <= 59
  }

  const SaveFailedAlert := "Failed to save meal. Please check inputs."

  /** The fields sent on both create and update; the prices and quantity are
      the text of their inputs and the pickup time the start time entered. */
  datatype MealData = MealData(
    title: string,
    description: string,
    original_price: string,
    discount_price: string,
    quantity: string,
    pickup_time_start: string,
    mealType: MealType,
    image_url: string)

  datatype SaveRequest =
    | UpdateMeal(mealId: string, data: MealData)
    | CreateMeal(restaurant_id: string, data: MealData, is_sold_out: bool)

  function CommonData(f: MealForm): (d: MealData)
    ensures d.title == f.title && d.image_url == f.image_url && d.mealType == f.mealType
    ensures d.description == FullDescription(f.description, f.pickup_time_end)
  {
    MealData(f.title, FullDescription(f.description, f.pickup_time_end), f.original_price,
      f.discount_price, f.quantity, f.pickup_time_start, f.mealType, f.image_url)
  }

  /** The request `handleSave` sends: an update of the meal being edited when
      there is a (non-empty) editing id, otherwise a new meal of this
      restaurant that is not sold out. */
  function SaveRequestFor(editingId: Option<string>, restaurantId: string, f: MealForm): (r: SaveRequest)
    ensures r.UpdateMeal? <==> editingId.Some? && editingId.value != ""
    ensures r.UpdateMeal? ==> r.mealId == editingId.value
    ensures r.CreateMeal? ==> r.restaurant_id == restaurantId && !r.is_sold_out
    ensures r.data == CommonData(f)
  {
    if editingId.Some? && editingId.value != "" then UpdateMeal(editingId.value, CommonData(f))
    else CreateMeal(restaurantId, CommonData(f), false)
  }

  /** A price of `c` cents as `Number.prototype.toString` writes the dollar
      amount: no fraction for whole dollars, and no trailing zero in the
      cents ("12", "12.5", "12.05"). */
  function PriceText(c: int): (r: string)
    ensures c >= 0 && c % 100 == 0 ==> r == NatToString(c / 100)
    ensures c < 0 <==> |r| > 0 && r[0] == '-'
  {
    SignText(c) + UnsignedPriceText(if c < 0 then -c else c)
  }

  function SignText(c: int): string {
    if c < 0 then "-" else ""
  }

  /** Negating an amount does not change whether it is whole dollars. */
  lemma NegatedWholeDollars(c: int)
    ensures (-c) % 100 == 0 <==> c % 100 == 0
  {
    if c % 100 == 0 {
      assert -c == 100 * -(c / 100);
    }
    if (-c) % 100 == 0 {
      assert c == 100 * -((-c) / 100);
    }
  }

  /** The written price has a "." exactly when it is not whole dollars, and
      then does not end in "0". */
  lemma PriceTextCanonical(c: int)
    ensures '.' in PriceText(c) <==> c % 100 != 0
    ensures c % 100 != 0 ==> PriceText(c)[|PriceText(c)| - 1] != '0'
  {
    if c < 0 {
      var u := UnsignedPriceText(-c);
      NegatedWholeDollars(c);
      assert PriceText(c) == "-" + u;
      assert '.' in "-" + u <==> '.' in u;
    }
  }

  function UnsignedPriceText(c: nat): (r: string)
    ensures |r| > 0 && '0' <= r[0] <= '9'
    ensures c % 100 == 0 ==> r == NatToString(c / 100)
    ensures c % 100 != 0 ==> IsPrefix(NatToString(c / 100) + ".", r)
    ensures '.' in r <==> c % 100 != 0
    ensures c % 100 != 0 ==> r[|r| - 1] != '0'
  {
    if c % 100 == 0 then NatToString(c / 100)
    else NatToString(c / 100) + "." + CentsDigits(c % 100)
  }

  /** The cents after the point, without a trailing zero. */
  function CentsDigits(cents: nat): string
    requires 0 < cents < 100
  {
    if cents % 10 == 0 then [DigitChar(cents / 10)] else [DigitChar(cents / 10), DigitChar(cents % 10)]
  }

  /** Reads a dollar amount written as digits, optionally followed by "."
      and one or two digits of cents, back into cents. */
  function ParseUnsignedPrice(t: string): Option<nat> {
    var (d, f) := SplitAtPoint(t);
    match f
    case None => if d != [] && IsDigits(d) then Some(DigitsValue(d) * 100) else None
    case Some(f) => ParsePointed(d, f)
  }

  /** The text before the first ".", and the text after it if there is one. */
  function SplitAtPoint(t: string): (string, Option<string>) {
    if t == [] then ([], None)
    else if t[0] == '.' then ([], Some(t[1..]))
    else
      var (d, f) := SplitAtPoint(t[1..]);
      ([t[0]] + d, f)
  }

  /** A run of digits followed by "." splits at that point. */
  lemma {:induction false} SplitAfterDigits(n: string, f: string)
    requires IsDigits(n)
    ensures SplitAtPoint(n + "." + f) == (n, Some(f))
    ensures SplitAtPoint(n) == (n, None)
    decreases |n|
  {
    if n != [] {
      assert (n + "." + f)[1..] == n[1..] + "." + f;
      SplitAfterDigits(n[1..], f);
      assert [n[0]] + n[1..] == n;
    } else {
      assert n + "." + f == ['.'] + f;
    }
  }

  /** Dollars and the one or two digits of cents around the point. */
  function ParsePointed(d: string, f: string): Option<nat> {
    if d != [] && IsDigits(d) && 1 <= |f| <= 2 && IsDigits(f) then
      Some(DigitsValue(d) * 100 + if |f| == 1 then DigitsValue(f) * 10 else DigitsValue(f))
    else None
  }

  /** Reads a price written by `PriceText`, with an optional leading "-". */
  function ParsePrice(t: string): Option<int> {
    if t != [] && t[0] == '-' then
      match ParseUnsignedPrice(t[1..])
      case Some(v) => Some(-(v as int))
      case None => None
    else
      match ParseUnsignedPrice(t)
      case Some(v) => Some(v)
      case None => None
  }

  /** The cents part written after the point reads back as the cents. */
  lemma CentsDigitsValue(cents: nat)
    requires 0 < cents < 100
    ensures var f: string := CentsDigits(cents);
      1 <= |f| <= 2 && IsDigits(f) &&
      (if |f| == 1 then DigitsValue(f) * 10 else DigitsValue(f)) == cents
  {
    var f := CentsDigits(cents);
    var hi := [DigitChar(cents / 10)];
    assert hi[..0] == [];
    assert DigitsValue(hi) == cents / 10;
    if cents % 10 != 0 {
      assert f[..1] == hi;
    }
  }

  /** A whole number of dollars reads back as its cents. */
  lemma WholePriceRoundTrip(c: nat)
    requires c % 100 == 0
    ensures ParseUnsignedPrice(UnsignedPriceText(c)) == Some(c)
  {
    var n := NatToString(c / 100);
    NatToStringValue(c / 100);
    SplitAfterDigits(n, "");
    assert UnsignedPriceText(c) == n;
  }

  /** Dollars and cents read back as the cents they were written from. */
  lemma FractionalPriceRoundTrip(c: nat)
    requires c % 100 != 0
    ensures ParseUnsignedPrice(UnsignedPriceText(c)) == Some(c)
  {
    var n := NatToString(c / 100);
    var f := CentsDigits(c % 100);
    assert UnsignedPriceText(c) == n + "." + f;
    SplitAfterDigits(n, f);
    NatToStringValue(c / 100);
    CentsDigitsValue(c % 100);
    ParsePointedOf(n, f, c / 100, c % 100);
  }

  lemma ParsePointedOf(d: string, f: string, dollars: nat, cents: nat)
    requires d != [] && IsDigits(d) && DigitsValue(d) == dollars
    requires 1 <= |f| <= 2 && IsDigits(f)
    requires (if |f| == 1 then DigitsValue(f) * 10 else DigitsValue(f)) == cents
    ensures ParsePointed(d, f) == Some(dollars * 100 + cents)
  {
  }

  /** The text written for a price reads back as the same number of cents. */
  lemma UnsignedPriceTextRoundTrip(c: nat)
    ensures ParseUnsignedPrice(UnsignedPriceText(c)) == Some(c)
  {
    if c % 100 == 0 {
      WholePriceRoundTrip(c);
    } else {
      FractionalPriceRoundTrip(c);
    }
  }

  lemma PriceTextRoundTrip(c: int)
    ensures ParsePrice(PriceText(c)) == Some(c)
  {
    var n: nat := if c < 0 then -c else c;
    UnsignedPriceTextRoundTrip(n);
    ParseSigned(c, UnsignedPriceText(n));
  }

  /** The sign written before an unsigned amount is read back with it. */
  lemma ParseSigned(c: int, u: string)
    requires u != [] && u[0] != '-'
    requires ParseUnsignedPrice(u) == Some(if c < 0 then -c else c)
    ensures ParsePrice(SignText(c) + u) == Some(c)
  {
    if c < 0 {
      assert (SignText(c) + u)[1..] == u;
    } else {
      assert SignText(c) + u == u;
    }
  }

  /** The form filled from a meal being edited: the prices are written in
      dollars, the start time is the meal's pickup time as shown by the
      browser, the end time is left empty. */
  function FormFromMeal(m: Meal, startTime: string): (f: MealForm)
    ensures f.title == m.title && f.mealType == m.mealType
    ensures f.description == m.description.GetOr("") && f.image_url == m.image_url.GetOr("")
    ensures f.original_price == PriceText(m.original_price) && f.discount_price == PriceText(m.discount_price)
    ensures f.quantity == IntToString(m.quantity)
    ensures f.pickup_time_start == startTime && f.pickup_time_end == ""
  {
    MealForm(m.title, m.description.GetOr(""), PriceText(m.original_price), PriceText(m.discount_price),
      IntToString(m.quantity), startTime, "", m.image_url.GetOr(""), m.mealType)
  }

  /** Saving an edit made without touching the form sends the meal's own
      title, type, image and description back, under the meal's id. */
  lemma EditThenSaveKeepsFields(m: Meal, startTime: string, restaurantId: string)
    requires m.id != ""
    ensures var r := SaveRequestFor(Some(m.id), restaurantId, FormFromMeal(m, startTime));
      r == UpdateMeal(m.id, r.data) && r.data.title == m.title && r.data.mealType == m.mealType &&
      r.data.description == m.description.GetOr("") && r.data.image_url == m.image_url.GetOr("")
  {
  }

  class DashboardPage {
    var loading: bool
    var meals: seq<Meal>
    var stats: Api.RestaurantStats
    var notifications: seq<Notification>
    var unreadCount: int
    var showAddMeal: bool
    var editingId: Option<string>
    var submitting: bool
    var formData: MealForm

    /** A hidden form is always a clean create form. */
    ghost predicate Valid()
      reads this
    {
      !showAddMeal ==> formData == EmptyForm && editingId.None?
    }

    /** The badge agrees with the feed. */
    ghost predicate BadgeAccurate()
      reads this
    {
      unreadCount == Count(notifications, IsUnread)
    }

    constructor ()
      ensures Valid() && BadgeAccurate()
      ensures loading && meals == [] && notifications == [] && !showAddMeal && !submitting
    {
      loading := true;
      meals := [];
      stats := Api.RestaurantStats(0, 0, 0, 0);
      notifications := [];
      unreadCount := 0;
      showAddMeal := false;
      editingId := None;
      submitting := false;
      formData := EmptyForm;
    }

    /** `fetchDashboardData`: without a profile a sign-out is requested and
        nothing is loaded; otherwise returned stats and meals replace the old
        ones, the feed becomes the returned notifications (or none) and the
        badge counts the unread ones. Loading ends false. */
    method FetchDashboardData(hasProfile: bool, statData: Option<Api.RestaurantStats>,
                              mealData: Option<seq<Meal>>, notifData: Option<seq<Notification>>)
      returns (signOutRequested: bool)
      requires Valid()
      modifies this
      ensures Valid() && !loading
      ensures signOutRequested == !hasProfile
      ensures !hasProfile ==>
        meals == old(meals) && stats == old(stats) && notifications == old(notifications) && unreadCount == old(unreadCount)
      ensures hasProfile ==> notifications == notifData.GetOr([]) && BadgeAccurate()
      ensures hasProfile ==> meals == mealData.GetOr(old(meals)) && stats == statData.GetOr(old(stats))
      ensures showAddMeal == old(showAddMeal) && editingId == old(editingId) && formData == old(formData)
      ensures submitting == old(submitting)
    {
      loading := true;
      signOutRequested := !hasProfile;
      if hasProfile {
        if statData.Some? {
          stats := statData.value;
        }
        if mealData.Some? {
          meals := mealData.value;
        }
        notifications := notifData.GetOr([]);
        unreadCount := Count(notifications, IsUnread);
      }
      loading := false;
    }

    /** A realtime insert puts the notification first and bumps the badge
        iff it is unread; an accurate badge stays accurate. */
    method OnInsert(n: Notification)
      modifies this
      ensures notifications == [n] + old(notifications)
      ensures unreadCount == old(unreadCount) + (if n.is_read then 0 else 1)
      ensures old(BadgeAccurate()) ==> BadgeAccurate()
      ensures showAddMeal == old(showAddMeal) && editingId == old(editingId) && formData == old(formData)
      ensures meals == old(meals) && stats == old(stats) && loading == old(loading) && submitting == old(submitting)
    {
      PrependUnread(notifications, n);
      notifications := [n] + notifications;
      unreadCount := unreadCount + (if n.is_read then 0 else 1);
    }

    /** A realtime update replaces the notification with the same id in
        place and leaves the badge as it was. */
    method OnUpdate(n: Notification)
      modifies this
      ensures notifications == ReplaceById(old(notifications), n)
      ensures unreadCount == old(unreadCount)
      ensures showAddMeal == old(showAddMeal) && editingId == old(editingId) && formData == old(formData)
      ensures meals == old(meals) && stats == old(stats) && loading == old(loading) && submitting == old(submitting)
    {
      notifications := ReplaceById(notifications, n);
    }

    /** Clicking a notification only asks the backend to mark it read; the
        page itself does not change. */
    method HandleReadingNotification(n: Notification) returns (markReadId: string)
      ensures markReadId == n.id
    {
      markReadId := n.id;
    }

    /** `resetForm`: every field cleared, the type back to individual, no
        meal being edited, the form hidden. */
    method ResetForm()
      modifies this
      ensures Valid()
      ensures formData == EmptyForm && editingId.None? && !showAddMeal
      ensures meals == old(meals) && notifications == old(notifications) && unreadCount == old(unreadCount)
      ensures stats == old(stats) && loading == old(loading) && submitting == old(submitting)
    {
      formData := EmptyForm;
      editingId := None;
      showAddMeal := false;
    }

    /** `handleEditClick`: the form is filled from the meal, its id is being
        edited, and the form is shown. */
    method HandleEditClick(m: Meal, startTime: string)
      modifies this
      ensures Valid()
      ensures formData == FormFromMeal(m, startTime) && editingId == Some(m.id) && showAddMeal
      ensures meals == old(meals) && notifications == old(notifications) && unreadCount == old(unreadCount)
      ensures stats == old(stats) && loading == old(loading) && submitting == old(submitting)
    {
      formData := FormFromMeal(m, startTime);
      editingId := Some(m.id);
      showAddMeal := true;
    }

    /** The add/cancel button: closing resets the form, opening shows the
        (clean) create form. */
    method ToggleAddMeal()
      requires Valid()
      modifies this
      ensures Valid()
      ensures showAddMeal == !old(showAddMeal)
      ensures showAddMeal ==> formData == EmptyForm && editingId.None?
      ensures meals == old(meals) && notifications == old(notifications) && unreadCount == old(unreadCount)
    {
      if showAddMeal {
        ResetForm();
      } else {
        showAddMeal := true;
      }
    }

    /** An input of the (shown) form changes. */
    method HandleInputChange(f: MealForm)
      requires Valid() && showAddMeal
      modifies this`formData
      ensures Valid() && formData == f
    {
      formData := f;
    }

    /** `handleSave`: without a profile only a sign-out is requested.
        Otherwise the pickup timestamp is built from the start time first:
        when that time is not a valid "HH:MM" the timestamp conversion
        throws, so nothing is sent, the failure alert is shown and the form
        stays. With a valid time the request is built from the form; on
        success the form is reset and a reload requested, on failure the
        alert is shown and the form stays. Submitting is false at the end of
        a save. */
    method HandleSave(profileId: Option<string>, outcome: Outcome)
      returns (sent: Option<SaveRequest>, alert: Option<string>, signOutRequested: bool, reloadRequested: bool)
      requires Valid() && showAddMeal
      modifies this
      ensures Valid()
      ensures profileId.Some? ==> !submitting
      ensures profileId.None? ==> submitting == old(submitting)
      ensures signOutRequested <==> profileId.None?
      ensures profileId.None? ==> sent.None? && alert.None? && formData == old(formData) && editingId == old(editingId)
      ensures profileId.Some? && !ValidStartTime(old(formData).pickup_time_start) ==> sent.None?
      ensures profileId.Some? && ValidStartTime(old(formData).pickup_time_start) ==>
        sent == Some(SaveRequestFor(old(editingId), profileId.value, old(formData)))
      ensures sent.Some? ==> ValidStartTime(sent.value.data.pickup_time_start)
      ensures alert.Some? <==> profileId.Some? && (!ValidStartTime(old(formData).pickup_time_start) || outcome.Fail?)
      ensures alert.Some? ==> alert.value == SaveFailedAlert
      ensures reloadRequested <==> profileId.Some? && ValidStartTime(old(formData).pickup_time_start) && outcome.Ok?
      ensures reloadRequested ==> formData == EmptyForm && editingId.None? && !showAddMeal
      ensures !reloadRequested ==> formData == old(formData) && editingId == old(editingId) && showAddMeal
      ensures meals == old(meals) && notifications == old(notifications) && unreadCount == old(unreadCount)
      ensures stats == old(stats) && loading == old(loading)
    {
      if profileId.None? {
        return None, None, true, false;
      }
      submitting := true;
      signOutRequested := false;
      reloadRequested := false;
      if !ValidStartTime(formData.pickup_time_start) {
        sent, alert := None, Some(SaveFailedAlert);
      } else {
        sent := Some(SaveRequestFor(editingId, profileId.value, formData));
        if outcome.Ok? {
          ResetForm();
          alert := None;
          reloadRequested := true;
        } else {
          alert := Some(SaveFailedAlert);
        }
      }
      submitting := false;
    }

    /** `handleDelete`: only a confirmed delete is sent, and then a reload is
        requested whatever the outcome. */
    method HandleDelete(mealId: string, confirmed: bool) returns (deleteId: Option<string>, reloadRequested: bool)
      ensures confirmed ==> deleteId == Some(mealId) && reloadRequested
      ensures !confirmed ==> deleteId.None? && !reloadRequested
    {
      if confirmed {
        return Some(mealId), true;
      }
      return None, false;
    }

    /** `handleToggleStatus`: the negated sold-out flag is sent and a reload
        requested. */
    method HandleToggleStatus(m: Meal) returns (sent: Api.MealUpdate, reloadRequested: bool)
      ensures sent.mealId == m.id && sent.is_sold_out == !m.is_sold_out
      ensures reloadRequested
    {
      sent := Api.ToggleAvailability(m.id, m.is_sold_out);
      reloadRequested := true;
    }
  }
}
