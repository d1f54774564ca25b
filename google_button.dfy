/**
 * The third-party sign-in button of app/components/google-button.tsx. Its click
 * handler sets `loading` and clears the inline `error`, awaits the popup
 * sign-in, toasts success and navigates home, or maps the error code to an
 * error toast and (for all codes but a closed popup) an inline error; `loading`
 * is lowered on every path.
 */
module GoogleSignIn {
  import opened Ui

  const SignedIn := "Successfully signed in with Google!"
  const PopupClosed := "Sign in popup closed before completion."
  const PopupBlocked := "Popup blocked! Please allow popups for this site."
  const AccountExists := "An account already exists with the same email address but different sign-in credentials."
  const AccountExistsInline := "Email already in use with another login method."
  const Failed := "Failed to sign in with Google. Please try again."
  const FailedInline := "Failed to sign in. Please try again."
  const Connecting := "Connecting..."
  const PopupClosedCode := "auth/popup-closed-by-user"
  const PopupBlockedCode := "auth/popup-blocked"
  const AccountExistsCode := "auth/account-exists-with-different-credential"
  const HomePath := "/"

  /** The reaction to a rejected popup sign-in: an error toast and, unless the popup was closed, an inline error. */
  datatype Reaction = Reaction(toast: string, inline: Option<string>)

  /** The four-way error-code table. */
  function FailureReaction(code: string): (r: Reaction)
    ensures r.inline.None? <==> code == PopupClosedCode
    ensures code == PopupBlockedCode ==> r.inline == Some(r.toast)
    ensures code == AccountExistsCode ==> r.inline == Some(AccountExistsInline)
    ensures code !in [PopupClosedCode, PopupBlockedCode, AccountExistsCode] ==> r == Reaction(Failed, Some(FailedInline))
  {
    if code == PopupClosedCode then Reaction(PopupClosed, None)
    else if code == PopupBlockedCode then Reaction(PopupBlocked, Some(PopupBlocked))
    else if code == AccountExistsCode then Reaction(AccountExists, Some(AccountExistsInline))
    else Reaction(Failed, Some(FailedInline))
  }

  /** A closed popup: its toast, and no inline error. */
  lemma PopupClosedReaction()
    ensures FailureReaction(PopupClosedCode) == Reaction(PopupClosed, None)
  {
  }

  /** A blocked popup: the same message as toast and as inline error. */
  lemma PopupBlockedReaction()
    ensures FailureReaction(PopupBlockedCode) == Reaction(PopupBlocked, Some(PopupBlocked))
  {
  }

  /** An account with other credentials: the long toast, and the short inline error. */
  lemma AccountExistsReaction()
    ensures FailureReaction(AccountExistsCode) == Reaction(AccountExists, Some(AccountExistsInline))
  {
  }

  /** The effects emitted once the popup sign-in settles. */
  function Settlement(outcome: Outcome): (r: seq<Effect>)
    ensures CountToasts(r) == 1
    ensures Navigate(HomePath) in r <==> outcome.Ok?
    ensures outcome.Ok? ==> r == [Toast(SuccessToast, SignedIn), Navigate(HomePath)]
    ensures outcome.Err? ==> r == [Toast(ErrorToast, FailureReaction(outcome.code).toast)]
  {
    match outcome
    case Ok => [Toast(SuccessToast, SignedIn), Navigate(HomePath)]
    case Err(code) => [Toast(ErrorToast, FailureReaction(code).toast)]
  }

  /** The inline error after settlement: only a rejection with an inline message replaces it. */
  function ErrorAfter(prior: Option<string>, outcome: Outcome): (e: Option<string>)
    ensures outcome.Ok? ==> e == prior
    ensures outcome == Err(PopupClosedCode) ==> e == prior
    ensures outcome.Err? && outcome.code != PopupClosedCode ==> e.Some? && e == FailureReaction(outcome.code).inline
  {
    match outcome
    case Ok => prior
    case Err(code) => if FailureReaction(code).inline.Some? then FailureReaction(code).inline else prior
  }

  /** What the button renders: its view, and the inline error paragraph if any. */
  datatype View = View(button: ButtonView, inlineError: Option<string>)

  /**
   * The button is disabled, pulses and reads "Connecting..." exactly while
   * loading; the inline paragraph shows a non-empty error and nothing for an
   * absent or empty one.
   */
  function Render(text: string, loading: bool, error: Option<string>): (v: View)
    ensures v.button.disabled <==> loading
    ensures v.button.busyIcon <==> loading
    ensures v.button.caption == (if loading then Connecting else text)
    ensures v.inlineError.Some? <==> error.Some? && error.value != ""
    ensures v.inlineError.Some? ==> v.inlineError == error
  {
    View(ButtonView(loading, if loading then Connecting else text, loading),
         if error.Some? && error.value != "" then error else None)
  }

  class GoogleButton {
    const text: string
    var error: Option<string>
    var loading: bool
    var effects: seq<Effect>

    constructor (text: string)
      ensures this.text == text && error == None && !loading && effects == []
    {
      this.text := text;
      error, loading, effects := None, false, [];
    }

    function Display(): View
      reads this
    {
      Render(text, loading, error)
    }

    /** Set `loading`, clear the inline error, then open the sign-in popup. */
    method Begin()
      modifies this
      ensures loading && error == None
      ensures Display().button.disabled && Display().inlineError == None
      ensures effects == old(effects) + [Call(GooglePopup)]
    {
      loading := true;
      error := None;
      effects := effects + [Call(GooglePopup)];
    }

    /** React to the settled popup sign-in, then lower `loading` whatever the outcome. */
    method Settle(outcome: Outcome)
      modifies this
      ensures !loading && !Display().button.disabled
      ensures error == ErrorAfter(old(error), outcome)
      ensures effects == old(effects) + Settlement(outcome)
      ensures CountToasts(effects) == CountToasts(old(effects)) + 1
    {
      effects := effects + Settlement(outcome);
      CountToastsAppend(old(effects), Settlement(outcome));
      error := ErrorAfter(error, outcome);
      loading := false;
    }

    /** One click: the inline error ends up absent on success and on a closed popup, the table's message otherwise. */
    method HandleGoogleSignIn(outcome: Outcome)
      modifies this
      ensures !loading
      ensures outcome.Ok? || outcome == Err(PopupClosedCode) ==> error == None
      ensures outcome.Err? && outcome.code != PopupClosedCode ==> error == FailureReaction(outcome.code).inline
      ensures effects == old(effects) + [Call(GooglePopup)] + Settlement(outcome)
    {
      Begin();
      Settle(outcome);
    }
  }
}
