/** The charity's dashboard: its stats, the donation rows with the
    upcoming pickups among them, and the mission-statement editor. */
module CharityDashboard {
  import opened Wrappers
  import opened Lists
  import Types
  import Api

  /** A donation as the list shows it. */
  datatype DonationRow = DonationRow(
    id: string,
    meal: Option<string>,
    restaurant: Option<string>,
    address: Option<string>,
    pickup_window: Option<int>,
    donor: string,
    quantity: int,
    value: Option<int>,
    date: int,
    status: string)

  const AnonymousDonor := "Anonymous"

  /** One row: the joined names where present, the donor's name or
      "Anonymous", and the quantity or 1 when it is zero. */
  function FormatDonation(d: Api.Donation): (r: DonationRow)
    ensures r.id == d.order.id && r.status == d.order.status && r.value == d.order.total_amount
    ensures r.donor == (if d.order.donor.Some? && d.order.donor.value != "" then d.order.donor.value else AnonymousDonor)
    ensures r.quantity == (if d.quantity != 0 then d.quantity else 1)
    ensures r.meal.Some? ==> d.order.meal.Some?
  {
    var meal := d.order.meal;
    var restaurant := if meal.Some? then meal.value.restaurant else None;
    DonationRow(
      d.order.id,
      if meal.Some? then meal.value.title else None,
      if restaurant.Some? then restaurant.value.name else None,
      if restaurant.Some? then restaurant.value.address else None,
      if meal.Some? then meal.value.pickup_window else None,
      if d.order.donor.Some? && d.order.donor.value != "" then d.order.donor.value else AnonymousDonor,
      if d.quantity != 0 then d.quantity else 1,
      d.order.total_amount,
      d.order.created_at,
      d.order.status)
  }

  /** Each donation maps to one row, in the same order. */
  function FormatDonations(ds: seq<Api.Donation>): (r: seq<DonationRow>)
    ensures |r| == |ds|
    ensures forall i :: 0 <= i < |ds| ==> r[i] == FormatDonation(ds[i])
  {
    seq(|ds|, i requires 0 <= i < |ds| => FormatDonation(ds[i]))
  }

  /** Rows built from the donation query each carry quantity 1, one row per
      order, with the order's id. */
  lemma FormattedRowsCountOne(response: Api.Response<seq<Api.DonationOrder>>)
    ensures var rows := FormatDonations(Api.GetDonations(response).data);
      |rows| == (if response.data.Some? then |response.data.value| else 0) &&
      (forall i :: 0 <= i < |rows| ==> rows[i].quantity == 1) &&
      (forall i :: 0 <= i < |rows| ==> rows[i].id == response.data.value[i].id)
  {
  }

  predicate IsReady(row: DonationRow) {
    row.status == "ready"
  }

  predicate IsNotReady(row: DonationRow) {
    !IsReady(row)
  }

  /** `upcomingPickups`: the rows with status "ready", in list order. */
  function UpcomingPickups(rows: seq<DonationRow>): (r: seq<DonationRow>)
    ensures forall i :: 0 <= i < |r| ==> IsReady(r[i]) && r[i] in rows
    ensures forall i :: 0 <= i < |rows| && IsReady(rows[i]) ==> rows[i] in r
    ensures IsSubsequence(r, rows)
    ensures |r| == Count(rows, IsReady)
  {
    FilterIsSubsequence(rows, IsReady);
    Filter(rows, IsReady)
  }

  /** Every row is either an upcoming pickup or collected, never both. */
  lemma PickupsAndCollectedSplit(rows: seq<DonationRow>)
    ensures |UpcomingPickups(rows)| + Count(rows, IsNotReady) == |rows|
  {
    CountComplement(rows, IsReady, IsNotReady);
  }

  /** The action of a row: a button for a ready donation, a label for the
      rest. */
  function RowAction(row: DonationRow): (r: string)
    ensures r == "Mark as Collected" <==> IsReady(row)
    ensures r == "Collected" <==> !IsReady(row)
  {
    if IsReady(row) then "Mark as Collected" else "Collected"
  }

  const NoMission := "No mission statement set yet. Click below to add one!"
  const SaveFailed := "Failed to update mission. Please try again."

  /** The mission as text, "" when null. */
  function MissionOrEmpty(mission: Option<string>): string {
    if mission.Some? then mission.value else ""
  }

  /** The mission shown, or the prompt when it is empty or null. */
  function MissionShown(mission: Option<string>): (r: string)
    ensures MissionOrEmpty(mission) != "" ==> r == MissionOrEmpty(mission)
    ensures MissionOrEmpty(mission) == "" ==> r == NoMission
  {
    if MissionOrEmpty(mission) != "" then MissionOrEmpty(mission) else NoMission
  }

  class CharityDashboardPage {
    var stats: Api.CharityStats
    var donations: seq<DonationRow>
    var mission: Option<string>
    var isEditing: bool
    var editMissionText: string
    var loading: bool

    /** Outside edit mode the edit text is the mission. */
    predicate Synced()
      reads this
    {
      !isEditing ==> editMissionText == MissionOrEmpty(mission)
    }

    constructor ()
      ensures stats == Api.CharityStats(0, 0, 0, 0) && donations == []
      ensures mission == Some("") && !isEditing && editMissionText == "" && loading
      ensures Synced()
    {
      stats := Api.CharityStats(0, 0, 0, 0);
      donations := [];
      mission := Some("");
      isEditing := false;
      editMissionText := "";
      loading := true;
    }

    /** `loadDashboard`: nothing without a profile. Stats are replaced only
        when they came back; the mission and the edit text only when the
        profile has a non-empty mission statement; the donation rows are
        always replaced (a failed query gives none). */
    method LoadDashboard(
      profileId: Option<string>,
      statResult: Result<Api.CharityStats>,
      details: Api.Response<Types.CharityDetails>,
      orders: Api.Response<seq<Api.DonationOrder>>)
      requires Synced()
      modifies this
      ensures Synced()
      ensures profileId.None? ==>
        stats == old(stats) && donations == old(donations) && mission == old(mission) &&
        isEditing == old(isEditing) && editMissionText == old(editMissionText) && loading == old(loading)
      ensures profileId.Some? ==> !loading && isEditing == old(isEditing)
      ensures profileId.Some? ==> stats == (if statResult.Success? then statResult.value else old(stats))
      ensures profileId.Some? && HasMission(details) ==>
        mission == details.data.value.mission_statement && editMissionText == details.data.value.mission_statement.value
      ensures profileId.Some? && !HasMission(details) ==>
        mission == old(mission) && editMissionText == old(editMissionText)
      ensures profileId.Some? ==> donations == FormatDonations(Api.GetDonations(orders).data)
    {
      if profileId.None? {
        return;
      }
      if statResult.Success? {
        stats := statResult.value;
      }
      if HasMission(details) {
        mission := details.data.value.mission_statement;
        editMissionText := details.data.value.mission_statement.value;
      }
      donations := FormatDonations(Api.GetDonations(orders).data);
      loading := false;
    }

    /** The edit button. */
    method StartEditing()
      modifies this`isEditing
      ensures isEditing && Synced()
    {
      isEditing := true;
    }

    /** Typing in the mission box. */
    method EditText(text: string)
      requires isEditing
      modifies this`editMissionText
      ensures editMissionText == text && Synced()
    {
      editMissionText := text;
    }

    /** `handleSaveMission`: nothing without a profile. Otherwise the edit
        text is sent; on success it becomes the mission and edit mode ends,
        on failure an alert is shown and the text and mode are kept. */
    method HandleSaveMission(hasProfile: bool, outcome: Outcome) returns (sent: Option<string>, alert: Option<string>)
      requires Synced()
      modifies this`mission, this`isEditing
      ensures Synced()
      ensures !hasProfile ==> sent.None? && alert.None? && mission == old(mission) && isEditing == old(isEditing)
      ensures hasProfile ==> sent == Some(editMissionText)
      ensures hasProfile && outcome.Ok? ==> alert.None? && mission == Some(editMissionText) && !isEditing
      ensures hasProfile && outcome.Fail? ==> alert == Some(SaveFailed) && mission == old(mission) && isEditing == old(isEditing)
    {
      if !hasProfile {
        return None, None;
      }
      sent := Some(editMissionText);
      alert := None;
      if outcome.Ok? {
        mission := Some(editMissionText);
        isEditing := false;
      } else {
        alert := Some(SaveFailed);
      }
    }

    /** `handleCancelEdit`: the edit text goes back to the mission (or "")
        and edit mode ends. */
    method HandleCancelEdit()
      modifies this`editMissionText, this`isEditing
      ensures editMissionText == MissionOrEmpty(mission) && !isEditing
      ensures Synced()
    {
      editMissionText := MissionOrEmpty(mission);
      isEditing := false;
    }
  }

  /** The fetched profile carries a non-empty mission statement. */
  predicate HasMission(details: Api.Response<Types.CharityDetails>) {
    details.data.Some? && details.data.value.mission_statement.Some? && details.data.value.mission_statement.value != ""
  }
}
