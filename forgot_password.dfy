/**
 * The password-reset page of app/routes/auth/forgot-password.tsx. Its submit
 * handler raises the busy flags, awaits the reset-email request, toasts success
 * (without navigating) or maps `auth/user-not-found` to an error on `email`, and
 * lowers the flags on every path. Its button is bound to the flags.
 */
module ForgotPassword {
  import opened Ui
  import Validators

  const ResetSent := "Reset password email sent! Please check your inbox/spam and sign in again."
  const NotRegistered := "This email is not registered."
  const UnexpectedRetry := "An unexpected error occurred. Please try again."
  const UserNotFoundCode := "auth/user-not-found"
  const SendingEmail := "Sending email..."
  const SendResetLink := "Send Reset Link"

  /** The effects emitted once the reset request settles. */
  function Settlement(outcome: Outcome): (r: seq<Effect>)
    ensures CountToasts(r) == 1
    ensures forall e :: e in r ==> !e.Navigate?
    ensures outcome.Ok? ==> r == [Toast(SuccessToast, ResetSent)]
    ensures (exists e :: e in r && e.ShowFieldError?) <==> outcome == Err(UserNotFoundCode)
    ensures outcome.Err? && outcome.code != UserNotFoundCode ==> r == [Toast(ErrorToast, UnexpectedRetry)]
  {
    match outcome
    case Ok => [Toast(SuccessToast, ResetSent)]
    case Err(code) =>
      if code == UserNotFoundCode then
        [Toast(ErrorToast, NotRegistered), ShowFieldError(FieldError("email", NotRegistered))]
      else
        [Toast(ErrorToast, UnexpectedRetry)]
  }

  /** An unregistered address: the error toast, then the same message on `email`, and nothing else. */
  lemma UserNotFoundTargetsEmail()
    ensures Settlement(Err(UserNotFoundCode)) == [Toast(ErrorToast, NotRegistered), ShowFieldError(FieldError("email", NotRegistered))]
  {
  }

  /** The submit button: disabled exactly by `isButtonDisabled`, the sending caption and spinner exactly while loading. */
  function ResetButton(isLoading: bool, isButtonDisabled: bool): (b: ButtonView)
    ensures b.disabled <==> isButtonDisabled
    ensures b.caption == SendingEmail <==> isLoading
    ensures b.caption == SendResetLink <==> !isLoading
    ensures b.busyIcon <==> isLoading
  {
    ButtonView(isButtonDisabled, if isLoading then SendingEmail else SendResetLink, isLoading)
  }

  class ForgotPasswordPage {
    var isButtonDisabled: bool
    var isLoading: bool
    var effects: seq<Effect>

    constructor ()
      ensures !isLoading && !isButtonDisabled && effects == []
    {
      isButtonDisabled, isLoading, effects := false, false, [];
    }

    function Button(): ButtonView
      reads this
    {
      ResetButton(isLoading, isButtonDisabled)
    }

    /** Raise both flags, then request the reset email for the submitted address. */
    method Begin(values: Validators.ForgotPasswordValues)
      modifies this
      ensures isLoading && isButtonDisabled
      ensures Button() == ButtonView(true, SendingEmail, true)
      ensures effects == old(effects) + [Call(SendPasswordReset(values.email))]
    {
      isLoading := true;
      isButtonDisabled := true;
      effects := effects + [Call(SendPasswordReset(values.email))];
    }

    /** React to the settled request, then lower both flags whatever the outcome. */
    method Settle(outcome: Outcome)
      modifies this
      ensures !isLoading && !isButtonDisabled
      ensures Button() == ButtonView(false, SendResetLink, false)
      ensures effects == old(effects) + Settlement(outcome)
      ensures CountToasts(effects) == CountToasts(old(effects)) + 1
    {
      effects := effects + Settlement(outcome);
      CountToastsAppend(old(effects), Settlement(outcome));
      isLoading := false;
      isButtonDisabled := false;
    }

    method OnSubmit(values: Validators.ForgotPasswordValues, outcome: Outcome)
      modifies this
      ensures !isLoading && !isButtonDisabled
      ensures effects == old(effects) + [Call(SendPasswordReset(values.email))] + Settlement(outcome)
    {
      Begin(values);
      Settle(outcome);
    }

    /** The form's submit, gated by the forgot-password schema of app/validators/index.ts. */
    method HandleSubmit(values: Validators.ForgotPasswordValues, isEmail: Validators.EmailCheck, outcome: Outcome)
      modifies this
      ensures var issues := Validators.ForgotPasswordErrors(values, isEmail);
              if issues == [] then
                !isLoading && !isButtonDisabled
                && effects == old(effects) + [Call(SendPasswordReset(values.email))] + Settlement(outcome)
              else
                isLoading == old(isLoading) && isButtonDisabled == old(isButtonDisabled)
                && effects == old(effects) + ShowAll(issues)
    {
      var issues := Validators.ForgotPasswordErrors(values, isEmail);
      if issues == [] {
        OnSubmit(values, outcome);
      } else {
        effects := effects + ShowAll(issues);
      }
    }
  }
}
