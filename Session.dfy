/** The session store of context/AuthContext.tsx: `AuthProvider` keeps the
    bearer token and role in memory and mirrors them into the device's
    string key-value store under the keys `token` and `role`. */
module Session {
  import opened Api

  const TOKEN_KEY := "token"
  const ROLE_KEY := "role"
  const NOT_FOUND := "AuthContext not found!"

  /** A snapshot of everything `AuthProvider` holds. */
  datatype SessionState = SessionState(store: map<string, string>, token: Option<string>, role: Option<string>, isLoggedIn: bool)

  /** The state the provider starts in: nothing in memory, whatever a previous
      run left in the store (the provider does not read it back). */
  function Initial(persisted: map<string, string>): SessionState
  {
    SessionState(persisted, None, None, false)
  }

  /** The state after `login(newToken, userRole)`. */
  function LoggedIn(s: SessionState, newToken: string, userRole: string): SessionState
  {
    SessionState(s.store[TOKEN_KEY := newToken][ROLE_KEY := userRole], Some(newToken), Some(userRole), true)
  }

  /** The state after `logout()`. */
  function LoggedOut(s: SessionState): SessionState
  {
    SessionState(s.store - {TOKEN_KEY, ROLE_KEY}, None, None, false)
  }

  /** The flags agree with each other, and an in-memory credential is exactly
      what the store holds. */
  predicate Consistent(s: SessionState)
  {
    && (s.isLoggedIn <==> s.token.Some?)
    && (s.token.Some? <==> s.role.Some?)
    && (s.token.Some? ==> TOKEN_KEY in s.store && s.store[TOKEN_KEY] == s.token.value)
    && (s.role.Some? ==> ROLE_KEY in s.store && s.store[ROLE_KEY] == s.role.value)
  }

  /** The store apart from the two session keys. */
  function OtherKeys(store: map<string, string>): map<string, string>
  {
    store - {TOKEN_KEY, ROLE_KEY}
  }

  lemma InitialIsConsistent(persisted: map<string, string>)
    ensures Consistent(Initial(persisted)) && !Initial(persisted).isLoggedIn
  {
  }

  /** After `login(t, r)` both keys hold the new credential, memory agrees,
      the session is logged in, and no other key has changed. */
  lemma LoginEstablishes(s: SessionState, t: string, r: string)
    ensures var s' := LoggedIn(s, t, r);
            && s'.store[TOKEN_KEY] == t && s'.store[ROLE_KEY] == r
            && s'.token == Some(t) && s'.role == Some(r) && s'.isLoggedIn
            && Consistent(s')
            && OtherKeys(s'.store) == OtherKeys(s.store)
  {
  }

  /** After `logout()` neither key is stored, memory is cleared, the session
      is logged out, and no other key has changed. */
  lemma LogoutClears(s: SessionState)
    ensures var s' := LoggedOut(s);
            && TOKEN_KEY !in s'.store && ROLE_KEY !in s'.store
            && s'.token == None && s'.role == None && !s'.isLoggedIn
            && Consistent(s')
            && OtherKeys(s'.store) == OtherKeys(s.store)
  {
  }

  /** Logging out a second time changes nothing. */
  lemma LogoutIdempotent(s: SessionState)
    ensures LoggedOut(LoggedOut(s)) == LoggedOut(s)
  {
  }

  /** `useAuth()`: the provider's value, or the 'AuthContext not found!'
      error when the component is not under an `AuthProvider`. */
  function UseAuth<T>(context: Option<T>): (r: Hook<T>)
    ensures r.Found? <==> context.Some?
    ensures r.Found? ==> r.value == context.value
    ensures r.Failed? ==> r.error == NOT_FOUND
  {
    match context
    case Some(v) => Found(v)
    case None => Failed(NOT_FOUND)
  }

  /** The outcome of calling a hook: its value, or the error it throws. */
  datatype Hook<+T> = Found(value: T) | Failed(error: string)

  /** The `AuthProvider` component's state. */
  class AuthProvider {
    var store: map<string, string>
    var token: Option<string>
    var role: Option<string>
    var isLoggedIn: bool

    function State(): SessionState
      reads this
    {
      SessionState(store, token, role, isLoggedIn)
    }

    ghost predicate Valid()
      reads this
    {
      Consistent(State())
    }

    /** Mounting the provider over the store a previous run left behind. */
    constructor (persisted: map<string, string>)
      ensures Valid()
      ensures State() == Initial(persisted)
    {
      store := persisted;
      token := None;
      role := None;
      isLoggedIn := false;
    }

    /** `login(newToken, userRole)`: write both keys, then the three state
        fields, in the source's order. */
    method Login(newToken: string, userRole: string)
      requires Valid()
      modifies this
      ensures Valid()
      ensures State() == LoggedIn(old(State()), newToken, userRole)
      ensures store[TOKEN_KEY] == newToken && store[ROLE_KEY] == userRole
      ensures token == Some(newToken) && role == Some(userRole) && isLoggedIn
      ensures OtherKeys(store) == OtherKeys(old(store))
    {
      store := store[TOKEN_KEY := newToken];
      store := store[ROLE_KEY := userRole];
      token := Some(newToken);
      role := Some(userRole);
      isLoggedIn := true;
      LoginEstablishes(old(State()), newToken, userRole);
    }

    /** `logout()`: remove both keys, then clear the three state fields. */
    method Logout()
      requires Valid()
      modifies this
      ensures Valid()
      ensures State() == LoggedOut(old(State()))
      ensures TOKEN_KEY !in store && ROLE_KEY !in store
      ensures token == None && role == None && !isLoggedIn
      ensures OtherKeys(store) == OtherKeys(old(store))
    {
      store := store - {TOKEN_KEY};
      store := store - {ROLE_KEY};
      token := None;
      role := None;
      isLoggedIn := false;
      LogoutClears(old(State()));
    }
  }
}
