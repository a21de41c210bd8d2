/**
 * The client's `auth` slice: the session it keeps after a login, changed in
 * place by two reducers.
 */
module AuthSlice {
  import opened Wrappers
  import opened LoginService

  /** The `setCredentials` payload: the fields it is read from may be absent (null). */
  datatype Credentials = Credentials(token: Option<string>, user: Option<Profile>, partner: Option<Profile>)

  /** A snapshot of the slice. */
  datatype AuthState = AuthState(token: Option<string>, user: Option<Profile>, partner: Option<Profile>,
                                 isAuthenticated: bool)

  /** `initialState`: nobody is signed in. */
  function InitialState(): (s: AuthState)
    ensures s.token.None? && s.user.None? && s.partner.None? && !s.isAuthenticated
  {
    AuthState(None, None, None, false)
  }

  /** What `setCredentials` leaves behind: the payload, authenticated; nothing of the previous state survives. */
  function AfterSetCredentials(s: AuthState, p: Credentials): AuthState
  {
    AuthState(p.token, p.user, p.partner, true)
  }

  /** What `clearCredentials` leaves behind: the initial state, whatever came before. */
  function AfterClearCredentials(s: AuthState): (t: AuthState)
    ensures t == InitialState()
  {
    AuthState(None, None, None, false)
  }

  class AuthStore {
    var token: Option<string>
    var user: Option<Profile>
    var partner: Option<Profile>
    var isAuthenticated: bool

    function State(): AuthState
      reads this
    {
      AuthState(token, user, partner, isAuthenticated)
    }

    constructor ()
      ensures State() == InitialState()
    {
      token, user, partner, isAuthenticated := None, None, None, false;
    }

    method SetCredentials(payload: Credentials)
      modifies this
      ensures State() == AfterSetCredentials(old(State()), payload)
    {
      token := payload.token;
      user := payload.user;
      partner := payload.partner;
      isAuthenticated := true;
    }

    method ClearCredentials()
      modifies this
      ensures State() == AfterClearCredentials(old(State()))
    {
      token := None;
      user := None;
      partner := None;
      isAuthenticated := false;
    }
  }

  /** Clearing twice is clearing once. */
  lemma ClearIsIdempotent(s: AuthState)
    ensures AfterClearCredentials(AfterClearCredentials(s)) == AfterClearCredentials(s)
  {
  }

  /** Logging in and then out returns to the initial state. */
  lemma SetThenClearIsInitial(s: AuthState, p: Credentials)
    ensures AfterClearCredentials(AfterSetCredentials(s, p)) == InitialState()
  {
  }

  /** The last `setCredentials` wins. */
  lemma LastSetWins(s: AuthState, p: Credentials, q: Credentials)
    ensures AfterSetCredentials(AfterSetCredentials(s, p), q) == AfterSetCredentials(s, q)
  {
  }
}
