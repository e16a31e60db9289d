/** The session provider: the signed-in user record, the loading flag, and
    the client token it clears or lets the client set.  `Session` is the
    provider's observable state together with the client's token cells; the
    step functions say what each operation does to it, and the provider's
    methods are proved to perform exactly those steps. */
module Auth {
  import opened Values
  import opened Api

  datatype Session = Session(user: Option<User>, isLoading: bool, token: Option<string>, saved: Option<string>)

  /** What `login` and `signup` of the provider resolve to. */
  datatype AuthResult = AuthResult(success: bool, error: Option<string>)

  const UseAuthOutsideProvider := "useAuth must be used within an AuthProvider"

  predicate Authenticated(s: Session)
  {
    s.user.Some?
  }

  /** Local storage holds the token exactly when the token is truthy. */
  predicate Synced(s: Session)
  {
    s.saved == OrNone(s.token)
  }

  /** A signed-in user is backed by a token that authenticated calls carry. */
  predicate Backed(s: Session)
  {
    s.user.Some? ==> Present(s.token)
  }

  /** `refreshUser`: without a token, forget the user and stop loading
      (the fetch never happens, so `fetched` is ignored); otherwise adopt the
      returned user, or forget the user and drop the token. */
  function RefreshStep(s: Session, fetched: FetchOutcome<User>): (r: Session)
    ensures r.user.Some? ==> Present(s.token) && fetched.Replied? && r.user == Some(fetched.body) && r.token == s.token
    ensures r.token == s.token || r.token.None?
  {
    if !Present(s.token) then
      s.(user := None, isLoading := false)
    else
      var r := Normalise(fetched);
      if r.success && r.data.Some? then
        s.(user := r.data, isLoading := false)
      else
        s.(user := None, isLoading := false, token := None, saved := None)
  }

  /** `login` or `signup`: the client adopts a granted token, then the
      provider adopts the body's user whenever the call succeeded with a body. */
  function AuthStep(s: Session, fetched: FetchOutcome<AuthBody>): (r: Session)
    ensures r.token == s.token || (fetched.Replied? && r.token == fetched.body.token && Present(r.token))
    ensures r.user != s.user ==> fetched.Replied?
  {
    var r := Normalise(fetched);
    var granted := GrantedToken(r);
    var s1 := s.(token := TokenAfterAuth(s.token, r),
                 saved := if granted.Some? then granted else s.saved);
    if r.success && r.data.Some? then s1.(user := r.data.value.user) else s1
  }

  /** What the provider reports for a client result: success without an
      error, or failure with the client's error. */
  function AuthOutcome(r: ApiResponse<AuthBody>): (a: AuthResult)
    ensures a.success <==> r.success && r.data.Some?
    ensures a.success ==> a.error.None?
    ensures !a.success ==> a.error == r.error
  {
    if r.success && r.data.Some? then AuthResult(true, None) else AuthResult(false, r.error)
  }

  /** `logout`: the client drops its token, the provider its user. */
  function LogoutStep(s: Session): (r: Session)
    ensures r.isLoading == s.isLoading
    ensures !Authenticated(r) && !Present(r.token)
  {
    s.(user := None, token := None, saved := None)
  }

  /** `refreshUser` with no truthy token ignores the network entirely. */
  lemma RefreshWithoutToken(s: Session, f: FetchOutcome<User>)
    requires !Present(s.token)
    ensures RefreshStep(s, f) == s.(user := None, isLoading := false)
    ensures !Authenticated(RefreshStep(s, f))
  {
  }

  /** `refreshUser` with a token: success adopts the returned user and keeps
      the token; any failure signs out and drops the token. */
  lemma RefreshWithToken(s: Session, f: FetchOutcome<User>)
    requires Present(s.token)
    ensures f.Replied? ==> RefreshStep(s, f) == s.(user := Some(f.body), isLoading := false)
    ensures !f.Replied? ==> RefreshStep(s, f) == s.(user := None, isLoading := false, token := None, saved := None)
  {
  }

  /** Loading has ended after every refresh, whatever happened. */
  lemma RefreshEndsLoading(s: Session, f: FetchOutcome<User>)
    ensures !RefreshStep(s, f).isLoading
  {
  }

  /** After a refresh a signed-in user always has a token behind it. */
  lemma RefreshBacksUser(s: Session, f: FetchOutcome<User>)
    ensures Backed(RefreshStep(s, f))
  {
  }

  /** Every step keeps local storage in step with the token. */
  lemma StepsKeepStorageSynced(s: Session, fu: FetchOutcome<User>, fa: FetchOutcome<AuthBody>)
    requires Synced(s)
    ensures Synced(RefreshStep(s, fu))
    ensures Synced(AuthStep(s, fa))
    ensures Synced(LogoutStep(s))
  {
  }

  /** A successful `login`/`signup` adopts the body's user and reports
      success; a failed one leaves the whole session unchanged and passes the
      client's error through. */
  lemma AuthStepOutcome(s: Session, f: FetchOutcome<AuthBody>)
    ensures f.Replied? ==> AuthStep(s, f).user == f.body.user && AuthOutcome(Normalise(f)).success
    ensures !f.Replied? ==> AuthStep(s, f) == s
    ensures !f.Replied? ==> AuthOutcome(Normalise(f)) == AuthResult(false, Normalise(f).error)
    ensures AuthStep(s, f).isLoading == s.isLoading
  {
  }

  /** When the backend sends a token with every successful body, `login` and
      `signup` keep a signed-in user backed by a token. */
  lemma AuthStepBacksUser(s: Session, f: FetchOutcome<AuthBody>)
    requires Backed(s)
    requires f.Replied? ==> Present(f.body.token)
    ensures Backed(AuthStep(s, f))
  {
  }

  /** A successful body without a token still signs the user in, while the
      client keeps no token: the provider then reports an authenticated user
      whose calls carry no credential. */
  lemma AuthWithoutTokenSignsIn(u: User)
    ensures var s := Session(None, false, None, None);
            var after := AuthStep(s, Replied(AuthBody(None, Some(u))));
            Backed(s) && Authenticated(after) && !Backed(after)
  {
  }

  /** `logout` leaves nobody signed in and no token anywhere. */
  lemma LogoutSignsOut(s: Session)
    ensures !Authenticated(LogoutStep(s))
    ensures LogoutStep(s).token == None && LogoutStep(s).saved == None
    ensures Backed(LogoutStep(s)) && Synced(LogoutStep(s))
  {
  }

  class AuthProvider {
    const api: ApiClient
    var user: Option<User>
    var isLoading: bool

    function State(): Session
      reads this, api
    {
      Session(user, isLoading, api.token, api.saved)
    }

    /** `isAuthenticated`, derived from the user cell. */
    function IsAuthenticated(): (b: bool)
      reads this, api
      ensures b <==> Authenticated(State())
    {
      user.Some?
    }

    constructor (api: ApiClient)
      ensures this.api == api
      ensures user == None && isLoading
    {
      this.api := api;
      user := None;
      isLoading := true;
    }

    method RefreshUser(fetched: FetchOutcome<User>) returns (sent: Option<HttpRequest>)
      modifies this, api
      ensures State() == RefreshStep(old(State()), fetched)
      ensures sent.None? <==> !Present(old(api.token))
      ensures sent.Some? ==> sent.value == HttpRequest(Get, api.baseUrl + "/api/auth/me", RequestHeaders(old(api.token)), NoBody)
    {
      var token := api.GetToken();
      if !Present(token) {
        user := None;
        isLoading := false;
        sent := None;
        return;
      }
      var request, r := api.GetCurrentUser(fetched);
      sent := Some(request);
      if r.success && r.data.Some? {
        user := r.data;
      } else {
        user := None;
        api.SetToken(None);
      }
      isLoading := false;
    }

    /** `login`; `sent` is the request the client issues for it. */
    method Login(email: string, password: string, fetched: FetchOutcome<AuthBody>)
      returns (sent: HttpRequest, result: AuthResult)
      modifies this, api
      ensures sent == HttpRequest(Post, api.baseUrl + LoginEndpoint, RequestHeaders(old(api.token)),
                                  LoginBody(LoginPayload(email, password)))
      ensures State() == AuthStep(old(State()), fetched)
      ensures result == AuthOutcome(Normalise(fetched))
    {
      var r;
      sent, r := api.Login(LoginPayload(email, password), fetched);
      if r.success && r.data.Some? {
        user := r.data.value.user;
        return sent, AuthResult(true, None);
      }
      return sent, AuthResult(false, r.error);
    }

    /** `signup`; `sent` is the request the client issues for it. */
    method Signup(email: string, password: string, name: Option<string>, fetched: FetchOutcome<AuthBody>)
      returns (sent: HttpRequest, result: AuthResult)
      modifies this, api
      ensures sent == HttpRequest(Post, api.baseUrl + RegisterEndpoint, RequestHeaders(old(api.token)),
                                  SignupBody(SignupPayload(email, password, name)))
      ensures State() == AuthStep(old(State()), fetched)
      ensures result == AuthOutcome(Normalise(fetched))
    {
      var r;
      sent, r := api.Signup(SignupPayload(email, password, name), fetched);
      if r.success && r.data.Some? {
        user := r.data.value.user;
        return sent, AuthResult(true, None);
      }
      return sent, AuthResult(false, r.error);
    }

    method Logout()
      modifies this, api
      ensures State() == LogoutStep(old(State()))
    {
      api.Logout();
      user := None;
    }
  }

  /** `useAuth`: the provider's value inside a provider, an error outside. */
  function UseAuth(context: Option<AuthProvider>): (r: Result<AuthProvider>)
    ensures r.Failure? <==> context.None?
    ensures r.Failure? ==> r.message == "useAuth must be used within an AuthProvider"
    ensures r.Success? ==> r.value == context.value
  {
    match context
    case None => Failure(UseAuthOutsideProvider)
    case Some(provider) => Success(provider)
  }
}
