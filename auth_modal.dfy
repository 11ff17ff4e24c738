/** The sign-in / sign-up / forgot-password dialog: a three-mode machine
    whose submit is split at its single await. */
module AuthModal {
  import opened Wrappers
  import opened Strings

  /** The dialog's mode; the type admits these three and nothing else. */
  datatype Mode = SignIn | SignUp | Forgot

  /** The roles a visitor may sign up as. */
  datatype SignupRole = AsConsumer | AsRestaurant | AsCharity

  function SignupRoleName(r: SignupRole): string {
    match r
    case AsConsumer => "consumer"
    case AsRestaurant => "restaurant"
    case AsCharity => "charity"
  }

  function Title(mode: Mode): string {
    match mode
    case SignIn => "SIGN IN"
    case SignUp => "SIGN UP"
    case Forgot => "FORGOT PASSWORD"
  }

  function SubmitLabel(mode: Mode): string {
    match mode
    case SignIn => "SIGN IN"
    case SignUp => "CREATE ACCOUNT"
    case Forgot => "SEND RESET LINK"
  }

  /** The mode a submit label belongs to: the inverse of `SubmitLabel`. */
  function ModeOfSubmitLabel(text: string): (r: Option<Mode>)
    ensures r.Some? ==> SubmitLabel(r.value) == text
    ensures r.None? ==> forall m: Mode :: SubmitLabel(m) != text
  {
    if text == "SIGN IN" then Some(SignIn)
    else if text == "CREATE ACCOUNT" then Some(SignUp)
    else if text == "SEND RESET LINK" then Some(Forgot)
    else None
  }

  /** The title and the submit label each tell the mode apart. */
  lemma LabelsIdentifyMode(a: Mode, b: Mode)
    ensures Title(a) == Title(b) ==> a == b
    ensures SubmitLabel(a) == SubmitLabel(b) ==> a == b
    ensures ModeOfSubmitLabel(SubmitLabel(a)) == Some(a)
  {
  }

  /** A link under the form: its text and the mode it switches to. */
  datatype FooterLink = FooterLink(text: string, target: Mode)

  /** The footer links of each mode: the sign-in / sign-up toggle (absent
      in forgot mode), "Forgot password?" in sign-in mode and "Back to Sign
      in" in forgot mode. */
  function FooterLinks(mode: Mode): (r: seq<FooterLink>)
    ensures forall i :: 0 <= i < |r| ==> r[i].target != mode
    ensures mode == SignIn ==>
      |r| == 2 && r[0] == FooterLink("Don't have an account? Sign up", SignUp) && r[1].target == Forgot
    ensures mode == SignUp ==> r == [FooterLink("Already have an account? Sign in", SignIn)]
    ensures mode == Forgot ==> r == [FooterLink("Back to Sign in", SignIn)]
    ensures (exists i :: 0 <= i < |r| && r[i].target == Forgot) <==> mode == SignIn
  {
    match mode
    case SignIn =>
      var links := [FooterLink("Don't have an account? Sign up", SignUp), FooterLink("Forgot password?", Forgot)];
      assert links[1].target == Forgot;
      links
    case SignUp => [FooterLink("Already have an account? Sign in", SignIn)]
    case Forgot => [FooterLink("Back to Sign in", SignIn)]
  }

  /** What a submit sends. */
  datatype AuthRequest =
    | SignUpRequest(email: string, password: string, name: string, role: SignupRole, phone: Option<string>)
    | SignInRequest(email: string, password: string)
    | ResetRequest(email: string, redirectTo: string)

  /** A callback left pending by `setTimeout`. */
  datatype Timer = NoTimer | PendingSuccess | PendingSignIn

  const EmailMissing := "Please enter your email."
  const SignUpDone := "Check your email for the verification link!"
  const ResetSent := "If this email exists, you’ll receive a reset link shortly."
  const GenericError := "An error occurred"

  /** Where a reset link leads: the bridge page on this origin. */
  function RedirectTo(origin: string): string {
    origin + "/reset-password-bridge"
  }

  /** An optional field as sent: trimmed, or left out when blank. */
  function OptionalField(s: string): (r: Option<string>)
    ensures r.None? <==> IsBlank(s)
    ensures r.Some? ==> r.value == Trim(s)
  {
    TrimEmptyIffBlank(s);
    if Trim(s) != "" then Some(Trim(s)) else None
  }

  class AuthForm {
    var mode: Mode
    var role: SignupRole
    var name: string
    var phone: string
    var email: string
    var password: string
    var forgotEmail: string
    var loading: bool
    var message: Option<string>
    var error: Option<string>
    var timer: Timer

    constructor ()
      ensures mode == SignIn && role == AsConsumer && name == "" && phone == "" && email == "" && password == ""
      ensures forgotEmail == "" && !loading && message.None? && error.None? && timer == NoTimer
    {
      mode := SignIn;
      role := AsConsumer;
      name, phone, email, password, forgotEmail := "", "", "", "", "";
      loading := false;
      message := None;
      error := None;
      timer := NoTimer;
    }

    /** `handleClose`: back to sign-in with no error or message; the owner
        is asked to close. */
    method HandleClose() returns (closeRequested: bool)
      modifies this`mode, this`error, this`message
      ensures closeRequested && mode == SignIn && error.None? && message.None?
    {
      mode := SignIn;
      error, message := None, None;
      closeRequested := true;
    }

    method GoToSignIn()
      modifies this`mode, this`error, this`message
      ensures mode == SignIn && error.None? && message.None?
    {
      mode := SignIn;
      error, message := None, None;
    }

    method GoToSignUp()
      modifies this`mode, this`error, this`message
      ensures mode == SignUp && error.None? && message.None?
    {
      mode := SignUp;
      error, message := None, None;
    }

    /** `goToForgot` also carries the trimmed sign-in email over. */
    method GoToForgot()
      modifies this`mode, this`forgotEmail, this`error, this`message
      ensures mode == Forgot && forgotEmail == Trim(email) && error.None? && message.None?
    {
      mode := Forgot;
      forgotEmail := Trim(email);
      error, message := None, None;
    }

    /** Following a footer link switches to its target with the transient
        texts cleared. */
    method FollowLink(link: FooterLink)
      requires link in FooterLinks(mode)
      modifies this`mode, this`forgotEmail, this`error, this`message
      ensures mode == link.target && mode != old(mode) && error.None? && message.None?
      ensures mode == Forgot ==> forgotEmail == Trim(email)
      ensures mode != Forgot ==> forgotEmail == old(forgotEmail)
    {
      match link.target {
        case SignIn => GoToSignIn();
        case SignUp => GoToSignUp();
        case Forgot => GoToForgot();
      }
    }

    /** `handleSubmit` up to its await. Ignored while loading. Otherwise
        loading starts and the transient texts are cleared; sign-up and
        sign-in send the trimmed fields; forgot mode with a blank email sets
        "Please enter your email.", ends loading and sends nothing. */
    method HandleSubmit(origin: string) returns (request: Option<AuthRequest>)
      modifies this`loading, this`error, this`message
      ensures old(loading) ==>
        request.None? && loading && error == old(error) && message == old(message)
      ensures !old(loading) ==> message.None?
      ensures !old(loading) ==> (loading <==> request.Some?)
      ensures !old(loading) && request.Some? ==> error.None?
      ensures !old(loading) && mode == SignUp ==>
        request == Some(SignUpRequest(Trim(email), password, Trim(name), role, OptionalField(phone)))
      ensures !old(loading) && mode == SignIn ==>
        request == Some(SignInRequest(Trim(email), password))
      ensures !old(loading) && mode == Forgot && Trim(forgotEmail) == "" ==>
        request.None? && error == Some(EmailMissing)
      ensures !old(loading) && mode == Forgot && Trim(forgotEmail) != "" ==>
        request == Some(ResetRequest(Trim(forgotEmail), RedirectTo(origin)))
    {
      if loading {
        return None;
      }
      loading := true;
      error, message := None, None;
      match mode {
        case SignUp =>
          request := Some(SignUpRequest(Trim(email), password, Trim(name), role, OptionalField(phone)));
        case SignIn =>
          request := Some(SignInRequest(Trim(email), password));
        case Forgot =>
          var mail := Trim(forgotEmail);
          if mail == "" {
            error := Some(EmailMissing);
            loading := false;
            return None;
          }
          request := Some(ResetRequest(mail, RedirectTo(origin)));
      }
    }

    /** The rest of `handleSubmit` once the request settles. A failure shows
        the error's message (or a default). A sign-up success shows the
        verification notice and leaves success pending; a sign-in success
        reports success at once; a reset success shows the neutral notice
        and leaves the return to sign-in pending. Loading ends either way. */
    method Settle(request: AuthRequest, outcome: Outcome) returns (successReported: bool)
      modifies this`loading, this`error, this`message, this`timer
      ensures !loading
      ensures outcome.Fail? ==>
        !successReported && error == Some(MessageOr(outcome.message, GenericError)) &&
        message == old(message) && timer == old(timer)
      ensures outcome.Ok? ==> error == old(error)
      ensures outcome.Ok? && request.SignUpRequest? ==>
        !successReported && message == Some(SignUpDone) && timer == PendingSuccess
      ensures outcome.Ok? && request.SignInRequest? ==>
        successReported && message == old(message) && timer == old(timer)
      ensures outcome.Ok? && request.ResetRequest? ==>
        !successReported && message == Some(ResetSent) && timer == PendingSignIn
    {
      successReported := false;
      if outcome.Fail? {
        error := Some(MessageOr(outcome.message, GenericError));
      } else {
        match request {
          case SignUpRequest(_, _, _, _, _) =>
            message := Some(SignUpDone);
            timer := PendingSuccess;
          case SignInRequest(_, _) =>
            successReported := true;
          case ResetRequest(_, _) =>
            message := Some(ResetSent);
            timer := PendingSignIn;
        }
      }
      loading := false;
    }

    /** A pending timer fires: success is reported after a sign-up, and the
        dialog returns to sign-in after a reset request. */
    method TimerFired() returns (successReported: bool)
      modifies this`mode, this`error, this`message, this`timer
      ensures timer == NoTimer
      ensures successReported <==> old(timer) == PendingSuccess
      ensures old(timer) == PendingSignIn ==> mode == SignIn && error.None? && message.None?
      ensures old(timer) != PendingSignIn ==> mode == old(mode) && error == old(error) && message == old(message)
    {
      successReported := timer == PendingSuccess;
      if timer == PendingSignIn {
        GoToSignIn();
      }
      timer := NoTimer;
    }
  }
}
