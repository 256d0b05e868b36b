/** The client's session state: the signed-in account, its token, whether
    the stored session is still being checked, and the browser's local
    storage, which is where the token outlives a page load. A token is
    modelled by the claims it signs, as on the server; the HTTP calls are
    parameters carrying their outcome. */
module AuthContext {
  import opened Common
  import AuthRoutes

  /** The local-storage key the token lives under. */
  const TokenKey := "token"

  const OutsideProviderMessage := "useAuth must be used within an AuthProvider"
  const SignUpFallback := "Failed to sign up"
  const SignInFallback := "Failed to sign in"
  const FetchUserMessage := "Failed to fetch user data"

  /** What a successful signup or login hands back to the client. */
  datatype Session = Session(token: AuthRoutes.Token, user: AuthRoutes.PublicUser)

  /** `localStorage.getItem('token')`. */
  function StoredToken(storage: map<string, AuthRoutes.Token>): (r: Option<AuthRoutes.Token>)
    ensures r.Some? <==> TokenKey in storage
    ensures r.Some? ==> r.value == storage[TokenKey]
  {
    if TokenKey in storage then Some(storage[TokenKey]) else None
  }

  /** `setItem` followed by `getItem` gives the token back, and after
      `removeItem` there is none. */
  lemma StoredTokenRoundTrip(storage: map<string, AuthRoutes.Token>, t: AuthRoutes.Token)
    ensures StoredToken(storage[TokenKey := t]) == Some(t)
    ensures StoredToken(storage - {TokenKey}) == None
  {
  }

  // ---------------------------------------------------------------------
  // The client side of the HTTP calls
  // ---------------------------------------------------------------------

  /** `api.auth.signup` / `api.auth.login`: a success answer yields the
      session; a failure answer is thrown as an error carrying the server's
      message, or `fallback` when that message is empty. */
  function SessionOutcome(reply: AuthRoutes.AuthReply, fallback: string): (r: Result<Session, string>)
    requires reply.Success? ==> reply.token.Some?
    ensures r.Ok? <==> reply.Success?
    ensures r.Ok? ==> r.value.token == reply.token.value && r.value.user == reply.user
    ensures r.Err? && reply.message != "" ==> r.error == reply.message
    ensures r.Err? && reply.message == "" ==> r.error == fallback
  {
    if reply.Success? then Ok(Session(reply.token.value, reply.user))
    else Err(OrElse(Some(reply.message), fallback))
  }

  /** `api.auth.getMe`: any failure answer becomes one fixed error. */
  function MeOutcome(reply: AuthRoutes.AuthReply): (r: Result<AuthRoutes.PublicUser, string>)
    ensures r.Ok? <==> reply.Success?
    ensures r.Ok? ==> r.value == reply.user
    ensures r.Err? ==> r.error == FetchUserMessage
  {
    if reply.Success? then Ok(reply.user) else Err(FetchUserMessage)
  }

  /** A stored session survives a page load exactly when its account
      still exists on the server: the lookup then yields that account's
      public view. */
  lemma SessionSurvivesReload(users: map<Id, AuthRoutes.User>, id: Id)
    ensures MeOutcome(AuthRoutes.GetMe(users, id))
         == if id in users then Ok(AuthRoutes.PublicView(users[id])) else Err(FetchUserMessage)
  {
  }

  /** Signing up with a registered email surfaces the server's message. */
  lemma DuplicateSignupMessage(users: map<Id, AuthRoutes.User>, nextId: Id, email: string, password: string,
                               hash: string -> string, jwtExpire: Option<string>)
    requires AuthRoutes.IdsBelow(users, nextId)
    requires email != "" && password != "" && AuthRoutes.Registered(users, email)
    ensures var h := AuthRoutes.PostSignup(users, nextId, Some(email), Some(password), hash, jwtExpire);
            SessionOutcome(h.reply, SignUpFallback) == Err(AuthRoutes.DuplicateMessage)
  {
  }

  /** A login with an unknown email and one with a wrong password surface
      in the client as the same error. */
  lemma FailedLoginMessage(users: map<Id, AuthRoutes.User>, nextId: Id, email: string, password: string,
                           matches: (string, string) -> bool, jwtExpire: Option<string>)
    requires AuthRoutes.IdsBelow(users, nextId) && AuthRoutes.IdsMatch(users) && AuthRoutes.EmailsUnique(users)
    requires email != "" && password != ""
    requires forall k :: k in users && users[k].email == email ==> !matches(password, users[k].passwordHash)
    ensures var reply := AuthRoutes.PostLogin(users, nextId, Some(email), Some(password), matches, jwtExpire);
            SessionOutcome(reply, SignInFallback) == Err(AuthRoutes.InvalidCredentialsMessage)
  {
  }

  /** What `useAuth` hands a component. */
  datatype AuthValue = AuthValue(user: Option<AuthRoutes.PublicUser>, token: Option<AuthRoutes.Token>, loading: bool)

  /** `useAuth`: outside a provider there is no context and the hook throws. */
  function UseAuth(context: Option<AuthValue>): (r: Result<AuthValue, string>)
    ensures r.Err? <==> context.None?
    ensures r.Err? ==> r.error == OutsideProviderMessage
    ensures r.Ok? ==> r.value == context.value
  {
    if context.None? then Err(OutsideProviderMessage) else Ok(context.value)
  }

  // ---------------------------------------------------------------------
  // The provider
  // ---------------------------------------------------------------------

  class AuthProvider {
    var user: Option<AuthRoutes.PublicUser>
    var token: Option<AuthRoutes.Token>
    var loading: bool
    var storage: map<string, AuthRoutes.Token>

    /** Once the stored session has been checked, the token in memory is
        exactly the one in local storage. */
    ghost predicate Consistent()
      reads this
    {
      !loading ==> token == StoredToken(storage)
    }

    /** The value the provider passes down. */
    function Value(): AuthValue
      reads this
    {
      AuthValue(user, token, loading)
    }

    /** A provider as first mounted over the given local storage. */
    constructor (storage0: map<string, AuthRoutes.Token>)
      ensures user.None? && token.None? && loading && storage == storage0
    {
      user := None;
      token := None;
      loading := true;
      storage := storage0;
    }

    /** The mount effect. With a stored token the account is fetched with
        it (`me` is that call's outcome): on success the session is
        restored, on failure the stale token is dropped. Loading ends on
        every path. */
    method Init(me: Result<AuthRoutes.PublicUser, string>)
      requires loading && user.None? && token.None?
      modifies this
      ensures !loading && Consistent()
      ensures StoredToken(old(storage)).None? ==> storage == old(storage) && token.None? && user.None?
      ensures StoredToken(old(storage)).Some? && me.Ok? ==>
                storage == old(storage) && token == StoredToken(old(storage)) && user == Some(me.value)
      ensures StoredToken(old(storage)).Some? && me.Err? ==>
                storage == old(storage) - {TokenKey} && token.None? && user.None?
    {
      var storedToken := StoredToken(storage);
      if storedToken.Some? {
        token := storedToken;
        if me.Ok? {
          user := Some(me.value);
        } else {
          storage := storage - {TokenKey};
          token := None;
        }
        loading := false;
      } else {
        loading := false;
      }
    }

    /** What `signUp` and `signIn` do with the outcome of their call: on
        success the token is stored and the session set, and no error is
        returned; on failure the error's message is returned and nothing
        changes. */
    twostate predicate Established(response: Result<Session, string>, new error: Option<string>)
      reads this
    {
      && (response.Ok? ==>
            && error.None?
            && storage == old(storage)[TokenKey := response.value.token]
            && token == Some(response.value.token) && user == Some(response.value.user)
            && loading == old(loading))
      && (response.Err? ==> error == Some(response.error) && unchanged(this))
    }

    /** `signUp`, given the outcome of `api.auth.signup`. */
    method SignUp(response: Result<Session, string>) returns (error: Option<string>)
      modifies this
      ensures Established(response, error)
      ensures old(Consistent()) ==> Consistent()
    {
      if response.Err? {
        return Some(response.error);
      }
      storage := storage[TokenKey := response.value.token];
      token := Some(response.value.token);
      user := Some(response.value.user);
      error := None;
    }

    /** `signIn`, given the outcome of `api.auth.login`. */
    method SignIn(response: Result<Session, string>) returns (error: Option<string>)
      modifies this
      ensures Established(response, error)
      ensures old(Consistent()) ==> Consistent()
    {
      if response.Err? {
        return Some(response.error);
      }
      storage := storage[TokenKey := response.value.token];
      token := Some(response.value.token);
      user := Some(response.value.user);
      error := None;
    }

    /** `signOut`: the stored token goes and the session is cleared. */
    method SignOut()
      modifies this
      ensures storage == old(storage) - {TokenKey} && token.None? && user.None? && loading == old(loading)
      ensures old(Consistent()) ==> Consistent()
    {
      storage := storage - {TokenKey};
      token := None;
      user := None;
    }

    /** The `setUser` the provider exposes (the list uses it after a theme
        change). */
    method SetUser(u: Option<AuthRoutes.PublicUser>)
      modifies this`user
      ensures user == u
    {
      user := u;
    }
  }

  /** A page load over a stored token whose account no longer exists ends
      signed out with the token gone; signing in again restores a session
      that the next page load keeps. */
  method SessionScenario(tok: AuthRoutes.Token, u: AuthRoutes.PublicUser)
  {
    var users: map<Id, AuthRoutes.User> := map[];
    var p := new AuthProvider(map[TokenKey := tok]);
    p.Init(MeOutcome(AuthRoutes.GetMe(users, tok.id)));
    assert p.token.None? && p.user.None? && TokenKey !in p.storage;
    var error := p.SignIn(Ok(Session(tok, u)));
    assert error.None? && p.storage[TokenKey] == tok;
    var reload := new AuthProvider(p.storage);
    reload.Init(Ok(u));
    assert reload.token == Some(tok) && reload.user == Some(u) && !reload.loading;
    assert UseAuth(Some(reload.Value())) == Ok(AuthValue(Some(u), Some(tok), false));
    assert UseAuth(None).Err?;
  }
}
