/** The session store behind the auth context: who is signed in, the token, a loading flag
    and an error message, kept in step with the stored `auth_token` and the REST client's
    global token. */
module Session {
  import opened Common
  import opened Storage
  import opened ApiConfig

  datatype AuthUser = AuthUser(id: Option<int>, name: string, username: string)

  datatype LoginCredentials = LoginCredentials(username: string, password: string)

  /** The part of the login response the store reads. */
  datatype LoginResponse = LoginResponse(token: string)

  /** The placeholder display name given to every signed-in user. */
  const DemoName: string := "Restaurante Demo"
  /** The user a restored session gets, since no profile is fetched on start-up. */
  const DemoUser: AuthUser := AuthUser(None, DemoName, "demo")

  const LoginFailedMessage: string :=
    "Falha na autenticação. Verifique suas credenciais e tente novamente."

  const DashboardRoute: string := "/dashboard"
  /** Where logout sends the user: `/login`, not the guard's `/auth/login`. */
  const LogoutRoute: string := "/login"

  class AuthProvider {
    var user: Option<AuthUser>
    var token: Option<string>
    var isLoading: bool
    var error: Option<string>
    /** The browser's storage and the REST client's configuration, both shared. */
    const storage: LocalStorage
    const api: OpenApi

    /** A fresh provider: no user, no token, loading until the stored token is checked. */
    constructor (storage: LocalStorage, api: OpenApi)
      ensures this.storage == storage && this.api == api
      ensures user == None && token == None && isLoading && error == None
    {
      this.storage := storage;
      this.api := api;
      user := None;
      token := None;
      isLoading := true;
      error := None;
    }

    /** `isAuthenticated: !!token`: a token is held and it is not empty. */
    predicate IsAuthenticated()
      reads this
      ensures IsAuthenticated() <==> token.Some? && token.value != ""
    {
      Truthy(token)
    }

    /** Start-up restore: a non-empty stored `auth_token` becomes the session's and the
        client's token with the placeholder user, without asking the server; with none the
        session stays as it was. Loading ends either way. */
    method CheckAuth()
      modifies this`user, this`token, this`isLoading, api`token
      ensures var stored := old(storage.GetItem(AuthTokenKey));
        if Truthy(stored)
        then token == stored && user == Some(DemoUser) && api.token == stored
        else token == old(token) && user == old(user) && api.token == old(api.token)
      ensures !isLoading && error == old(error)
    {
      var stored := storage.GetItem(AuthTokenKey);
      if Truthy(stored) {
        api.SetAuthToken(stored);
        token := stored;
        user := Some(DemoUser);
      }
      isLoading := false;
    }

    /** Signs in with the login call's outcome. A success stores the token under
        `auth_token`, holds it, hands it to the client, records the user under the submitted
        username and navigates to the dashboard. A failure sets the message and clears the
        stored token, the held token, the user and the client's token. The error starts
        cleared, so it is unset after a success; loading ends false either way. */
    method Login(credentials: LoginCredentials, reply: Reply<LoginResponse>)
      returns (navigateTo: Option<string>)
      modifies this`user, this`token, this`isLoading, this`error, storage, api`token
      ensures !isLoading
      ensures reply.Ok? ==>
        var t := reply.value.token;
        storage.items == old(storage.items)[AuthTokenKey := t]
        && token == Some(t) && (if t != "" then api.token == Some(t) else api.token == None)
        && user == Some(AuthUser(None, DemoName, credentials.username))
        && error == None && navigateTo == Some(DashboardRoute)
      ensures reply.Err? ==>
        storage.items == old(storage.items) - {AuthTokenKey}
        && token == None && user == None && api.token == None
        && error == Some(LoginFailedMessage) && navigateTo == None
    {
      isLoading := true;
      error := None;
      if reply.Ok? {
        var authToken := reply.value.token;
        storage.SetItem(AuthTokenKey, authToken);
        token := Some(authToken);
        api.SetAuthToken(Some(authToken));
        user := Some(AuthUser(None, DemoName, credentials.username));
        navigateTo := Some(DashboardRoute);
      } else {
        error := Some(LoginFailedMessage);
        storage.RemoveItem(AuthTokenKey);
        token := None;
        user := None;
        api.SetAuthToken(None);
        navigateTo := None;
      }
      isLoading := false;
    }

    /** Signs out: clears the stored token, the held token, the user and the client's token,
        and navigates to `/login`. Everything else stays. */
    method Logout() returns (navigateTo: string)
      modifies this`user, this`token, storage, api`token
      ensures storage.items == old(storage.items) - {AuthTokenKey}
      ensures token == None && user == None && api.token == None
      ensures !IsAuthenticated()
      ensures navigateTo == LogoutRoute
    {
      storage.RemoveItem(AuthTokenKey);
      token := None;
      user := None;
      api.SetAuthToken(None);
      navigateTo := LogoutRoute;
    }
  }

  /** Logging out twice leaves the same state as logging out once. */
  method LogoutTwice(p: AuthProvider) returns (first: string, second: string)
    modifies p, p.storage, p.api
    ensures p.storage.items == old(p.storage.items) - {AuthTokenKey}
    ensures p.token == None && p.user == None && p.api.token == None
    ensures first == second == LogoutRoute
  {
    first := p.Logout();
    ghost var afterOnce := p.storage.items;
    second := p.Logout();
    assert p.storage.items == afterOnce - {AuthTokenKey} == afterOnce;
  }

  /** A successful sign-in with a non-empty token survives a reload: a fresh provider over
      the same storage restores an authenticated session without a network call. */
  method RestoreAfterLogin(storage: LocalStorage, credentials: LoginCredentials, t: string)
    returns (restored: AuthProvider)
    requires t != ""
    modifies storage
    ensures restored.IsAuthenticated() && restored.token == Some(t)
    ensures restored.api.token == Some(t)
  {
    var api := new OpenApi(None, ServerUrl);
    var p := new AuthProvider(storage, api);
    var nav := p.Login(credentials, Ok(LoginResponse(t)));
    var freshApi := new OpenApi(None, ServerUrl);
    restored := new AuthProvider(storage, freshApi);
    restored.CheckAuth();
  }

  /** Signing in as "testuser" against a server that answers with "fake-token" stores that
      token and navigates to the dashboard. */
  method LoginScenario(storage: LocalStorage, api: OpenApi) returns (p: AuthProvider)
    modifies storage, api
    ensures storage.GetItem(AuthTokenKey) == Some("fake-token")
    ensures p.IsAuthenticated() && p.user.Some? && p.user.value.username == "testuser"
  {
    p := new AuthProvider(storage, api);
    var nav := p.Login(LoginCredentials("testuser", "correctpassword"),
                       Ok(LoginResponse("fake-token")));
    assert nav == Some(DashboardRoute);
  }

  /** Failed sign-ins never leave a token behind, however many there are. */
  method RepeatedFailures(p: AuthProvider, credentials: LoginCredentials, errors: seq<HttpError>)
    modifies p, p.storage, p.api
    ensures |errors| > 0 ==> p.token == None && AuthTokenKey !in p.storage.items
    ensures |errors| > 0 ==> !p.IsAuthenticated() && p.api.token == None
  {
    var i := 0;
    while i < |errors|
      invariant 0 <= i <= |errors|
      invariant i > 0 ==> p.token == None && AuthTokenKey !in p.storage.items && p.api.token == None
    {
      var nav := p.Login(credentials, Err(errors[i]));
      i := i + 1;
    }
  }
}
