/** The page reached from a password-reset link: it waits for a recovery
    session, then accepts a new password. */
module ResetPassword {
  import opened Wrappers

  const MinPasswordLength := 8

  /** `canSubmit`: the new password is long enough and confirmed. */
  predicate CanSubmit(newPassword: string, confirm: string) {
    |newPassword| >= MinPasswordLength && newPassword == confirm
  }

  /** Both fields of a submittable form are at least eight characters, and
      changing either one to differ from the other blocks the submit. */
  lemma CanSubmitMeans(newPassword: string, confirm: string, other: string)
    ensures CanSubmit(newPassword, confirm) ==> |confirm| >= MinPasswordLength
    ensures other != confirm ==> !CanSubmit(other, confirm)
    ensures |newPassword| < MinPasswordLength ==> !CanSubmit(newPassword, confirm)
  {
  }

  const InvalidForm := "Passwords must match and be at least 8 characters."
  const Updated := "Password updated successfully. You can now sign in."
  const UpdateFailed := "Failed to update password."

  /** What the page shows. */
  datatype Screen = OpenLinkPrompt | PasswordForm

  /** The form is shown exactly when the page is ready. */
  function ScreenFor(ready: bool): (r: Screen)
    ensures r == PasswordForm <==> ready
  {
    if ready then PasswordForm else OpenLinkPrompt
  }

  /** The submit button is disabled while loading or while the form cannot
      be submitted. */
  function SubmitDisabled(loading: bool, newPassword: string, confirm: string): (r: bool)
    ensures !r <==> !loading && CanSubmit(newPassword, confirm)
  {
    loading || !CanSubmit(newPassword, confirm)
  }

  class ResetPasswordPage {
    var ready: bool
    var newPassword: string
    var confirm: string
    var loading: bool
    var msg: Option<string>

    constructor ()
      ensures !ready && newPassword == "" && confirm == "" && !loading && msg.None?
    {
      ready := false;
      newPassword, confirm := "", "";
      loading := false;
      msg := None;
    }

    /** The auth-event listener: a recovery event makes the page ready and
        clears the message; a sign-in carrying a session makes it ready;
        every other event changes nothing. */
    method OnAuthEvent(event: string, hasSession: bool)
      modifies this`ready, this`msg
      ensures event == "PASSWORD_RECOVERY" ==> ready && msg.None?
      ensures event == "SIGNED_IN" && hasSession ==> ready && msg == old(msg)
      ensures event != "PASSWORD_RECOVERY" && !(event == "SIGNED_IN" && hasSession) ==>
        ready == old(ready) && msg == old(msg)
    {
      if event == "PASSWORD_RECOVERY" {
        ready := true;
        msg := None;
      }
      if event == "SIGNED_IN" && hasSession {
        ready := true;
      }
    }

    /** The session check on mount: a session returned without error makes
        the page ready. */
    method OnGetSession(hasError: bool, hasSession: bool)
      modifies this`ready
      ensures ready == (old(ready) || (!hasError && hasSession))
    {
      if !hasError && hasSession {
        ready := true;
      }
    }

    /** `submit`: the message is cleared; an invalid form gets the
        validation message and no update is sent. Otherwise the new password
        is sent; success signs out, shows the success message and clears both
        fields, failure shows the error's message (or a default) and keeps
        them. Loading is false at the end. */
    method Submit(outcome: Outcome) returns (sent: Option<string>, signOutRequested: bool)
      modifies this`newPassword, this`confirm, this`loading, this`msg
      ensures sent.Some? <==> CanSubmit(old(newPassword), old(confirm))
      ensures sent.Some? ==> sent.value == old(newPassword)
      ensures sent.None? ==>
        msg == Some(InvalidForm) && !signOutRequested && loading == old(loading) &&
        newPassword == old(newPassword) && confirm == old(confirm)
      ensures sent.Some? ==> !loading
      ensures sent.Some? && outcome.Ok? ==>
        signOutRequested && msg == Some(Updated) && newPassword == "" && confirm == ""
      ensures sent.Some? && outcome.Fail? ==>
        !signOutRequested && msg == Some(MessageOr(outcome.message, UpdateFailed)) &&
        newPassword == old(newPassword) && confirm == old(confirm)
    {
      msg := None;
      signOutRequested := false;
      if !CanSubmit(newPassword, confirm) {
        msg := Some(InvalidForm);
        return None, false;
      }
      loading := true;
      sent := Some(newPassword);
      if outcome.Ok? {
        signOutRequested := true;
        msg := Some(Updated);
        newPassword := "";
        confirm := "";
      } else {
        msg := Some(MessageOr(outcome.message, UpdateFailed));
      }
      loading := false;
    }
  }
}
