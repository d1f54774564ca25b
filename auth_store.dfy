/**
 * The process-wide authentication store of app/store/use-auth-store.ts, with the
 * AuthState shape of app/types/index.d.ts. Its state is a user (or none) and a
 * loading flag; its only writers are `setUser` and `clearUser`, and both write
 * the whole state.
 *
 * The pure functions describe one write (`Apply`) and a sequence of writes
 * (`Run`); the class `Store` is the mutable store whose methods are proved to
 * perform exactly those writes.
 */
module AuthStore {
  import opened Ui

  /** The identity provider's user record, as the application caches it. */
  datatype User = User(uid: string, displayName: Option<string>, email: Option<string>, photoUrl: Option<string>)

  datatype AuthState = AuthState(user: Option<User>, isLoading: bool)

  /** A call of one of the two writers. */
  datatype Write = SetUser(user: Option<User>) | ClearUser

  /** The state at process start, before the session-restoration check reports. */
  const Initial := AuthState(None, true)

  /** The state after one write: the prior state is overwritten entirely. */
  function Apply(s: AuthState, w: Write): (t: AuthState)
    ensures !t.isLoading
    ensures w.SetUser? ==> t.user == w.user
    ensures w.ClearUser? ==> t.user.None?
  {
    match w
    case SetUser(u) => AuthState(u, false)
    case ClearUser => AuthState(None, false)
  }

  /** The state after a sequence of writes, in order. */
  function Run(s: AuthState, ws: seq<Write>): AuthState
    decreases |ws|
  {
    if ws == [] then s else Run(Apply(s, ws[0]), ws[1..])
  }

  /** A write does not depend on the state it overwrites. */
  lemma ApplyIgnoresPriorState(s: AuthState, s': AuthState, w: Write)
    ensures Apply(s, w) == Apply(s', w)
  {
  }

  /** `clearUser()` is the same write as `setUser(null)`. */
  lemma ClearUserIsSetNull(s: AuthState)
    ensures Apply(s, ClearUser) == Apply(s, SetUser(None))
  {
  }

  /** Repeating a write changes nothing. */
  lemma WritesIdempotent(s: AuthState, w: Write)
    ensures Apply(Apply(s, w), w) == Apply(s, w)
  {
  }

  /**
   * The loading flag is true only before the first write: once any write has
   * happened, no further sequence of writes makes it true again.
   */
  lemma {:induction false} LoadingOnlyBeforeFirstWrite(s: AuthState, ws: seq<Write>)
    ensures Run(s, ws).isLoading <==> s.isLoading && ws == []
    decreases |ws|
  {
    if ws != [] {
      LoadingOnlyBeforeFirstWrite(Apply(s, ws[0]), ws[1..]);
    }
  }

  /** Last write wins: after a non-empty sequence of writes, the state is that of its last write alone. */
  lemma {:induction false} LastWriteWins(s: AuthState, ws: seq<Write>)
    requires ws != []
    ensures Run(s, ws) == Apply(s, ws[|ws| - 1])
    decreases |ws|
  {
    if |ws| > 1 {
      LastWriteWins(Apply(s, ws[0]), ws[1..]);
      ApplyIgnoresPriorState(Apply(s, ws[0]), s, ws[|ws| - 1]);
    }
  }

  /** The single store instance. */
  class Store {
    var user: Option<User>
    var isLoading: bool

    function State(): AuthState
      reads this
    {
      AuthState(user, isLoading)
    }

    constructor ()
      ensures State() == Initial
    {
      user := None;
      isLoading := true;
    }

    method SetUser(u: Option<User>)
      modifies this
      ensures user == u && !isLoading
      ensures State() == Apply(old(State()), Write.SetUser(u))
    {
      user, isLoading := u, false;
    }

    method ClearUser()
      modifies this
      ensures user == None && !isLoading
      ensures State() == Apply(old(State()), Write.ClearUser)
    {
      user, isLoading := None, false;
    }
  }
}
