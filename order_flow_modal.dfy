/** The purchase-or-donate dialog shown for one meal: a small step machine
    driven by the buttons, the backend outcomes and two pending timers. */
module OrderFlowModal {
  import opened Wrappers
  import opened Types
  import Api

  /** The dialog's step; the type admits these four and nothing else. */
  datatype Step = Choice | CharitySelect | Processing | Success

  /** The callback a `setTimeout` has left pending: the short delay that
      shows success, or the longer one that reports success and closes. */
  datatype Timer = NoTimer | PendingSuccess | PendingFinish

  /** The header text of each step. */
  function Title(step: Step): string {
    match step
    case Choice => "THE CHOICE"
    case CharitySelect => "SELECT CHARITY"
    case Processing => "PROCESSING..."
    case Success => "SUCCESS!"
  }

  /** Each step has its own title. */
  lemma TitlesDistinct(a: Step, b: Step)
    ensures Title(a) == Title(b) ==> a == b
  {
  }

  /** A donation as sent to the backend. */
  datatype DonateRequest = DonateRequest(mealId: string, charityId: string)

  const OrderFailed := "Failed to complete order"
  const CharitiesFailed := "Failed to load charities"
  const DonateFailed := "Failed to donate meal"

  /** No charity is chosen: none, or an empty id. */
  predicate NoCharity(selected: Option<string>) {
    selected.None? || selected.value == ""
  }

  class OrderFlow {
    var step: Step
    var selectedCharity: Option<string>
    var charities: seq<CharityDetails>
    var loading: bool
    var error: Option<string>
    var timer: Timer

    constructor ()
      ensures step == Choice && selectedCharity.None? && charities == [] && !loading && error.None? && timer == NoTimer
    {
      step := Choice;
      selectedCharity := None;
      charities := [];
      loading := false;
      error := None;
      timer := NoTimer;
    }

    /** `handleOrder`. Signed out: straight to processing with the success
        timer pending and no backend call. Signed in: the error is cleared
        and the purchase is attempted; success shows the success step with
        the closing timer pending, failure returns to the choice with the
        error's message (or a default). */
    method HandleOrder(signedIn: bool, outcome: Outcome) returns (purchaseSent: bool)
      modifies this
      ensures purchaseSent == signedIn
      ensures selectedCharity == old(selectedCharity) && charities == old(charities)
      ensures !signedIn ==>
        step == Processing && timer == PendingSuccess && loading == old(loading) && error == old(error)
      ensures signedIn ==> !loading
      ensures signedIn && outcome.Ok? ==>
        step == Step.Success && timer == PendingFinish && error.None?
      ensures signedIn && outcome.Fail? ==>
        step == Choice && timer == old(timer) && error == Some(MessageOr(outcome.message, OrderFailed))
    {
      if !signedIn {
        step := Processing;
        timer := PendingSuccess;
        return false;
      }
      loading := true;
      error := None;
      step := Processing;
      if outcome.Ok? {
        step := Step.Success;
        timer := PendingFinish;
      } else {
        error := Some(MessageOr(outcome.message, OrderFailed));
        step := Choice;
      }
      loading := false;
      return true;
    }

    /** `handleDonateClick`. Signed out: straight to the charity list. Signed
        in: a failed lookup shows "Failed to load charities" and keeps the
        step; otherwise the verified charities (or none) are stored and the
        list is shown. Loading is false afterwards either way. */
    method HandleDonateClick(signedIn: bool, response: Api.Response<seq<CharityDetails>>)
      modifies this
      ensures !loading
      ensures selectedCharity == old(selectedCharity) && timer == old(timer)
      ensures !signedIn ==>
        step == CharitySelect && charities == old(charities) && error == old(error)
      ensures signedIn && response.error.Some? ==>
        step == old(step) && charities == old(charities) && error == Some(CharitiesFailed)
      ensures signedIn && response.error.None? ==>
        step == CharitySelect && charities == response.data.GetOr([]) && error == old(error)
    {
      loading := true;
      if !signedIn {
        loading := false;
        step := CharitySelect;
        return;
      }
      loading := false;
      if response.error.Some? {
        error := Some(CharitiesFailed);
        return;
      }
      charities := response.data.GetOr([]);
      step := CharitySelect;
    }

    /** Clicking a listed charity selects its user id. */
    method SelectCharity(i: nat)
      requires i < |charities|
      modifies this`selectedCharity
      ensures selectedCharity == Some(charities[i].user_id)
    {
      selectedCharity := Some(charities[i].user_id);
    }

    /** `handleDonate`. Without a chosen charity nothing happens. Signed
        out: straight to processing with the success timer pending. Signed
        in: the error is cleared and the donation of this meal to the chosen
        charity is sent; success shows the success step with the closing
        timer pending, failure returns to the charity list with the error's
        message (or a default). */
    method HandleDonate(signedIn: bool, mealId: string, outcome: Outcome) returns (sent: Option<DonateRequest>)
      modifies this
      ensures selectedCharity == old(selectedCharity) && charities == old(charities)
      ensures NoCharity(old(selectedCharity)) ==>
        sent.None? && step == old(step) && loading == old(loading) && error == old(error) && timer == old(timer)
      ensures !NoCharity(old(selectedCharity)) && !signedIn ==>
        sent.None? && step == Processing && timer == PendingSuccess && loading == old(loading) && error == old(error)
      ensures !NoCharity(old(selectedCharity)) && signedIn ==>
        sent == Some(DonateRequest(mealId, old(selectedCharity).value)) && !loading
      ensures !NoCharity(old(selectedCharity)) && signedIn && outcome.Ok? ==>
        step == Step.Success && timer == PendingFinish && error.None?
      ensures !NoCharity(old(selectedCharity)) && signedIn && outcome.Fail? ==>
        step == CharitySelect && timer == old(timer) && error == Some(MessageOr(outcome.message, DonateFailed))
    {
      if NoCharity(selectedCharity) {
        return None;
      }
      if !signedIn {
        step := Processing;
        timer := PendingSuccess;
        return None;
      }
      loading := true;
      error := None;
      step := Processing;
      sent := Some(DonateRequest(mealId, selectedCharity.value));
      if outcome.Ok? {
        step := Step.Success;
        timer := PendingFinish;
      } else {
        error := Some(MessageOr(outcome.message, DonateFailed));
        step := CharitySelect;
      }
      loading := false;
    }

    /** `handleClose`: back to the choice with no charity chosen and no
        error, and the owner is asked to close. A pending timer is not
        cancelled. */
    method HandleClose() returns (closeRequested: bool)
      modifies this
      ensures closeRequested
      ensures step == Choice && selectedCharity.None? && error.None?
      ensures charities == old(charities) && loading == old(loading) && timer == old(timer)
    {
      step := Choice;
      selectedCharity := None;
      error := None;
      closeRequested := true;
    }

    /** A pending timer fires. The short one shows success and leaves the
        closing one pending; the closing one reports success to the owner
        and then closes as `HandleClose` does. */
    method TimerFired() returns (successReported: bool, closeRequested: bool)
      modifies this
      ensures charities == old(charities) && loading == old(loading)
      ensures old(timer) == NoTimer ==>
        !successReported && !closeRequested && step == old(step) && selectedCharity == old(selectedCharity) &&
        error == old(error) && timer == NoTimer
      ensures old(timer) == PendingSuccess ==>
        !successReported && !closeRequested && step == Step.Success && timer == PendingFinish &&
        selectedCharity == old(selectedCharity) && error == old(error)
      ensures old(timer) == PendingFinish ==>
        successReported && closeRequested && step == Choice && timer == NoTimer &&
        selectedCharity.None? && error.None?
    {
      successReported, closeRequested := false, false;
      match timer {
        case NoTimer =>
        case PendingSuccess =>
          step := Step.Success;
          timer := PendingFinish;
        case PendingFinish =>
          successReported := true;
          timer := NoTimer;
          closeRequested := HandleClose();
      }
    }
  }
}
