/**
 * The route guard of app/layouts/protected-layout.tsx: a decision over the auth
 * store's state between a loading spinner, a redirect to the sign-in page, and
 * rendering the nested routes. Composed here with the store.
 */
module ProtectedLayout {
  import opened Ui
  import opened AuthStore

  const LoginPath := "/login"

  /** What the guard renders. `Redirect` carries the target and whether it replaces the history entry. */
  datatype View = Spinner | Redirect(to: string, replace: bool) | RenderChildren

  function Guard(s: AuthState): (v: View)
    ensures v.Spinner? <==> s.isLoading
    ensures v.Redirect? <==> !s.isLoading && s.user.None?
    ensures v.RenderChildren? <==> !s.isLoading && s.user.Some?
    ensures v.Redirect? ==> v == Redirect(LoginPath, true)
  {
    if s.isLoading then Spinner
    else if s.user.None? then Redirect(LoginPath, true)
    else RenderChildren
  }

  /** Before the session check reports, the guard shows the spinner. */
  lemma InitialShowsSpinner()
    ensures Guard(Initial) == Spinner
  {
  }

  /** After a user is set, the guard renders the nested routes, whatever the state before. */
  lemma SignedInRendersChildren(s: AuthState, u: User)
    ensures Guard(Apply(s, SetUser(Some(u)))) == RenderChildren
  {
  }

  /** After the user is cleared, the guard redirects to the sign-in page, whatever the state before. */
  lemma SignedOutRedirects(s: AuthState)
    ensures Guard(Apply(s, ClearUser)) == Redirect(LoginPath, true)
  {
  }

  /**
   * After any non-empty sequence of writes from process start, the spinner is
   * gone for good, and the guard renders children exactly when the last write
   * set a user.
   */
  lemma {:induction false} GuardAfterWrites(ws: seq<Write>)
    requires ws != []
    ensures Guard(Run(Initial, ws)) != Spinner
    ensures Guard(Run(Initial, ws)) == RenderChildren <==> ws[|ws| - 1].SetUser? && ws[|ws| - 1].user.Some?
  {
    LoadingOnlyBeforeFirstWrite(Initial, ws);
    LastWriteWins(Initial, ws);
  }

  /** The guard over a live store: start, sign in, sign out. */
  method SignInThenOut(u: User) returns (starting: View, signedIn: View, signedOut: View)
    ensures starting == Spinner
    ensures signedIn == RenderChildren
    ensures signedOut == Redirect(LoginPath, true)
  {
    var store := new Store();
    starting := Guard(store.State());
    store.SetUser(Some(u));
    signedIn := Guard(store.State());
    store.ClearUser();
    signedOut := Guard(store.State());
  }
}
