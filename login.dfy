/**
 * The sign-in page of app/routes/auth/login.tsx. Its submit handler raises the
 * busy flags, awaits the credential sign-in, and then either toasts success and
 * navigates home, or switches on the error code to pick an error toast and an
 * optional field error; the flags are lowered on every path.
 *
 * A submission is modelled as `Begin` (everything up to the await) followed by
 * `Settle` with the provider's outcome. `HandleSubmit` adds the form's
 * validation gate: the handler runs only when the sign-in schema (from
 * validators/index.ts) reports no issue.
 */
module Login {
  import opened Ui
  import Validators
  import LegacyValidators

  const LoggedIn := "Logged in successfully!"
  const NoAccount := "No account found with this email."
  const IncorrectPassword := "Incorrect password. Please try again."
  const Unexpected := "An unexpected error occurred. Please try again later."
  const UserNotFoundCode := "auth/user-not-found"
  const WrongPasswordCode := "auth/wrong-password"
  const HomePath := "/"
  const SignInCaption := "Sign In"

  /** The reaction to a rejected sign-in: an error toast and, for known codes, a field error. */
  datatype Reaction = Reaction(toast: string, fieldError: Option<FieldError>)

  /**
   * The error-code switch. A field error always carries the toast's message;
   * `email` is targeted exactly for an unknown account, `password` exactly for a
   * wrong password, and every other code gets the generic toast alone.
   */
  function FailureReaction(code: string): (r: Reaction)
    ensures r.fieldError.Some? ==> r.fieldError.value.message == r.toast
    ensures (r.fieldError.Some? && r.fieldError.value.path == "email") <==> code == UserNotFoundCode
    ensures (r.fieldError.Some? && r.fieldError.value.path == "password") <==> code == WrongPasswordCode
    ensures r.fieldError.None? <==> r.toast == Unexpected
    ensures code != UserNotFoundCode && code != WrongPasswordCode ==> r == Reaction(Unexpected, None)
  {
    if code == UserNotFoundCode then Reaction(NoAccount, Some(FieldError("email", NoAccount)))
    else if code == WrongPasswordCode then Reaction(IncorrectPassword, Some(FieldError("password", IncorrectPassword)))
    else Reaction(Unexpected, None)
  }

  /** The effects emitted once the sign-in call settles: one toast, then a navigation or a field error. */
  function Settlement(outcome: Outcome): (r: seq<Effect>)
    ensures CountToasts(r) == 1
    ensures Navigate(HomePath) in r <==> outcome.Ok?
    ensures Toast(SuccessToast, LoggedIn) in r <==> outcome.Ok?
    ensures outcome.Ok? ==> r == [Toast(SuccessToast, LoggedIn), Navigate(HomePath)]
    ensures outcome.Err? ==> r[0] == Toast(ErrorToast, FailureReaction(outcome.code).toast)
    ensures forall e :: e in r && e.ShowFieldError? ==> outcome.Err? && FailureReaction(outcome.code).fieldError == Some(e.error)
  {
    match outcome
    case Ok => [Toast(SuccessToast, LoggedIn), Navigate(HomePath)]
    case Err(code) =>
      var reaction := FailureReaction(code);
      [Toast(ErrorToast, reaction.toast)]
      + (if reaction.fieldError.Some? then [ShowFieldError(reaction.fieldError.value)] else [])
  }

  /** An unknown account: an error toast and the same message on `email`. */
  lemma UserNotFoundTargetsEmail()
    ensures Settlement(Err(UserNotFoundCode)) == [Toast(ErrorToast, NoAccount), ShowFieldError(FieldError("email", NoAccount))]
  {
  }

  /** A wrong password: an error toast, then the same message on `password`, and nothing else. */
  lemma WrongPasswordTargetsPassword()
    ensures Settlement(Err(WrongPasswordCode)) == [Toast(ErrorToast, IncorrectPassword), ShowFieldError(FieldError("password", IncorrectPassword))]
  {
  }

  /** Any other code: the generic toast and nothing else. */
  lemma OtherCodesToastOnly(code: string)
    requires code != UserNotFoundCode && code != WrongPasswordCode
    ensures Settlement(Err(code)) == [Toast(ErrorToast, Unexpected)]
  {
  }

  /** The page state: the two busy flags and the log of emitted effects. */
  class LoginPage {
    var isLoading: bool
    var isButtonDisabled: bool
    var effects: seq<Effect>

    constructor ()
      ensures !isLoading && !isButtonDisabled && effects == []
    {
      isLoading, isButtonDisabled, effects := false, false, [];
    }

    /** The submit button as rendered: neither flag is bound to it, so it never disables or shows a spinner. */
    function Button(): (b: ButtonView)
      ensures !b.disabled && !b.busyIcon && b.caption == SignInCaption
    {
      ButtonView(false, SignInCaption, false)
    }

    /**
     * Raise both flags, then issue the sign-in call with the submitted
     * credentials. The button stays enabled while the call is in flight.
     */
    method Begin(values: Validators.SignInValues)
      modifies this
      ensures isLoading && isButtonDisabled
      ensures !Button().disabled
      ensures effects == old(effects) + [Call(SignIn(values.email, values.password))]
    {
      isButtonDisabled := true;
      isLoading := true;
      effects := effects + [Call(SignIn(values.email, values.password))];
    }

    /** React to the settled call, then lower both flags whatever the outcome. */
    method Settle(outcome: Outcome)
      modifies this
      ensures !isLoading && !isButtonDisabled
      ensures effects == old(effects) + Settlement(outcome)
      ensures CountToasts(effects) == CountToasts(old(effects)) + 1
    {
      effects := effects + Settlement(outcome);
      CountToastsAppend(old(effects), Settlement(outcome));
      isButtonDisabled := false;
      isLoading := false;
    }

    /** One submission that reaches the handler: call, then reaction, flags down afterwards. */
    method OnSubmit(values: Validators.SignInValues, outcome: Outcome)
      modifies this
      ensures !isLoading && !isButtonDisabled
      ensures effects == old(effects) + [Call(SignIn(values.email, values.password))] + Settlement(outcome)
    {
      Begin(values);
      Settle(outcome);
    }

    /**
     * The form's submit: with schema issues the handler does not run, no call is
     * made, the issues are shown and the flags are untouched; otherwise it is
     * `OnSubmit`.
     */
    method HandleSubmit(values: Validators.SignInValues, isEmail: Validators.EmailCheck, outcome: Outcome)
      modifies this
      ensures var issues := LegacyValidators.LegacySignInErrors(values, isEmail);
              if issues == [] then
                !isLoading && !isButtonDisabled
                && effects == old(effects) + [Call(SignIn(values.email, values.password))] + Settlement(outcome)
              else
                isLoading == old(isLoading) && isButtonDisabled == old(isButtonDisabled)
                && effects == old(effects) + ShowAll(issues)
    {
      var issues := LegacyValidators.LegacySignInErrors(values, isEmail);
      if issues == [] {
        OnSubmit(values, outcome);
      } else {
        effects := effects + ShowAll(issues);
      }
    }
  }
}
