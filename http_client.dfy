/** The axios client the dashboard's hand-written services go through: a request step that
    attaches the bearer token kept in the `token` storage slot, a response step that turns
    every failure into `{message, status, data}` and signs out on 401, a second pair of such
    steps, and the `authService` calls that maintain the `token` slot. */
module HttpClient {
  import opened Common
  import opened Storage
  import ApiConfig
  import RouteGuard
  import Restaurants

  /** The storage slot this client reads and writes (not the session store's `auth_token`). */
  const TokenKey: string := "token"

  const AuthorizationHeader: string := "Authorization"
  const BearerPrefix: string := "Bearer "

  /** Where a 401 sends the browser from the first response step: the guard's login page. */
  const LoginPage: string := "/auth/login"
  /** Where a 401 sends the browser from the second response step: a different page. */
  const LegacyLoginPage: string := "/login"

  const DefaultRequestError: string := "Ocorreu um erro na requisição"
  const DefaultLoginError: string := "Erro ao fazer login"
  const DefaultRegisterError: string := "Erro ao criar conta"

  /** The session store, the HTTP client and the route guard each keep their token in a slot
      of their own: two different localStorage keys and a cookie. */
  lemma TokenSlotsDistinct()
    ensures TokenKey != ApiConfig.AuthTokenKey
    ensures TokenKey == RouteGuard.TokenCookie
  {
  }

  // ----- request step -----

  /** `config.headers` after the request step, given what the `token` slot holds: a bearer
      header for a non-empty token, the headers untouched otherwise. */
  function WithBearer(headers: map<string, string>, stored: Option<string>): (h: map<string, string>)
    ensures Truthy(stored) ==> AuthorizationHeader in h && h[AuthorizationHeader] == BearerPrefix + stored.value
    ensures !Truthy(stored) ==> h == headers
    ensures forall k :: k in headers && k != AuthorizationHeader ==> k in h && h[k] == headers[k]
  {
    if Truthy(stored) then headers[AuthorizationHeader := BearerPrefix + stored.value] else headers
  }

  /** The token a bearer header carries, if the headers have one. */
  function BearerToken(headers: map<string, string>): (t: Option<string>)
    ensures t.Some? ==>
      AuthorizationHeader in headers && headers[AuthorizationHeader] == BearerPrefix + t.value
  {
    if AuthorizationHeader in headers && BearerPrefix <= headers[AuthorizationHeader]
    then Some(headers[AuthorizationHeader][|BearerPrefix|..])
    else None
  }

  /** An outgoing request carries `Bearer <token>` exactly when the slot holds a non-empty
      token, and the header gives that token back; no other header changes. */
  lemma BearerIffToken(headers: map<string, string>, stored: Option<string>)
    ensures var h := WithBearer(headers, stored);
      (Truthy(stored) ==> BearerToken(h) == stored)
      && (!Truthy(stored) ==> h == headers)
      && (forall k :: k in headers && k != AuthorizationHeader ==> k in h && h[k] == headers[k])
      && h.Keys == headers.Keys + (if Truthy(stored) then {AuthorizationHeader} else {})
  {
  }

  /** Both request steps attach the same header from the same slot, so running the second
      after the first changes nothing. */
  lemma BearerIdempotent(headers: map<string, string>, stored: Option<string>)
    ensures WithBearer(WithBearer(headers, stored), stored) == WithBearer(headers, stored)
  {
  }

  class RequestConfig {
    var headers: map<string, string>

    constructor (headers: map<string, string>)
      ensures this.headers == headers
    {
      this.headers := headers;
    }
  }

  /** The request step (either of the two): reads the `token` slot and, when it holds a
      non-empty token, sets the bearer header on the outgoing request in place. */
  method AttachBearer(config: RequestConfig, storage: LocalStorage)
    modifies config
    ensures config.headers == WithBearer(old(config.headers), storage.GetItem(TokenKey))
  {
    var token := storage.GetItem(TokenKey);
    if Truthy(token) {
      config.headers := config.headers[AuthorizationHeader := BearerPrefix + token.value];
    }
  }

  // ----- response steps -----

  /** The error a failed call is rejected with after the first response step. */
  datatype NormalizedError = NormalizedError(message: string, status: Option<int>, data: Option<ErrorBody>)

  /** `error.response?.data?.message`. */
  function ServerMessage(e: HttpError): Option<string> {
    if e.response.Some? && e.response.value.data.Some? then e.response.value.data.value.message
    else None
  }

  function Status(e: HttpError): Option<int> {
    if e.response.Some? then Some(e.response.value.status) else None
  }

  predicate Unauthorized(e: HttpError) {
    Status(e) == Some(401)
  }

  /** `{message, status, data}`: the server's message, or the fixed default when it sent
      none or an empty one; the status and body as they arrived. */
  function Normalize(e: HttpError): (n: NormalizedError)
    ensures n.message != ""
    ensures n.status.Some? <==> e.response.Some?
    ensures e.response.Some? ==> n.status == Some(e.response.value.status) && n.data == e.response.value.data
    ensures e.response.None? ==> n.data == None && n.message == DefaultRequestError
    ensures Truthy(ServerMessage(e)) ==> n.message == ServerMessage(e).value
    ensures !Truthy(ServerMessage(e)) ==> n.message == DefaultRequestError
  {
    NormalizedError(
      if Truthy(ServerMessage(e)) then ServerMessage(e).value else DefaultRequestError,
      Status(e),
      if e.response.Some? then e.response.value.data else None)
  }

  /** The transport's own message never reaches the caller: two failures that differ only
      in it are rejected alike. */
  lemma NormalizeIgnoresTransportMessage(e: HttpError, m: string)
    ensures Normalize(e.(message := m)) == Normalize(e)
  {
  }

  /** The first response step. A success passes through untouched. A failure is rejected
      normalised; on 401 the `token` slot is cleared first and the browser sent to the
      login page, while any other failure leaves storage alone. */
  method HandleResponse<T>(reply: Reply<T>, storage: LocalStorage)
    returns (outcome: Result<T, NormalizedError>, navigateTo: Option<string>)
    modifies storage
    ensures reply.Ok? ==> outcome == Success(reply.value)
    ensures reply.Err? ==> outcome == Failure(Normalize(reply.error))
    ensures reply.Err? && Unauthorized(reply.error) ==>
      storage.items == old(storage.items) - {TokenKey} && navigateTo == Some(LoginPage)
    ensures !(reply.Err? && Unauthorized(reply.error)) ==>
      storage.items == old(storage.items) && navigateTo == None
  {
    if reply.Ok? {
      return Success(reply.value), None;
    }
    navigateTo := None;
    if Unauthorized(reply.error) {
      storage.RemoveItem(TokenKey);
      navigateTo := Some(LoginPage);
    }
    outcome := Failure(Normalize(reply.error));
  }

  /** The second response step's error half: on 401 the browser is sent to `/login`; the
      same error is rejected again, unchanged. */
  method AuthErrorStep(e: HttpError) returns (rejected: HttpError, navigateTo: Option<string>)
    ensures rejected == e
    ensures navigateTo.Some? <==> Unauthorized(e)
    ensures navigateTo.Some? ==> navigateTo.value == LegacyLoginPage
  {
    rejected := e;
    navigateTo := if Unauthorized(e) then Some(LegacyLoginPage) else None;
  }

  /** The two response steps disagree on where a 401 goes: the first sends the browser to
      the guard's login page, the second to `/login`, a path the guard does not watch. */
  lemma UnauthorizedTargetsDiffer()
    ensures LoginPage != LegacyLoginPage
    ensures LoginPage == RouteGuard.LoginPath && RouteGuard.Matched(LoginPage)
    ensures !RouteGuard.Matched(LegacyLoginPage)
  {
    assert LegacyLoginPage[1] == 'l';
    assert (RouteGuard.DashboardPath + "/")[1] == 'd' && (RouteGuard.AuthPrefix + "/")[1] == 'a';
  }

  // ----- authService -----

  datatype LoginResponse = LoginResponse(status: int, token: string)

  datatype RegisterResponse = RegisterResponse(status: int, restaurant: Restaurants.Restaurant)

  /** `error.response?.data?.message || fallback`. */
  function MessageOr(e: HttpError, fallback: string): (m: string)
    ensures fallback != "" ==> m != ""
    ensures Truthy(ServerMessage(e)) ==> m == ServerMessage(e).value
    ensures !Truthy(ServerMessage(e)) ==> m == fallback
  {
    if Truthy(ServerMessage(e)) then ServerMessage(e).value else fallback
  }

  /** The message a failed login throws with. */
  function LoginErrorMessage(e: HttpError): (m: string)
    ensures m != ""
    ensures Truthy(ServerMessage(e)) ==> m == ServerMessage(e).value
    ensures !Truthy(ServerMessage(e)) ==> m == DefaultLoginError
  {
    MessageOr(e, DefaultLoginError)
  }

  /** The message a failed registration throws with: the server's, else the transport's,
      else the fixed default. */
  function RegisterErrorMessage(e: HttpError): (m: string)
    ensures m != ""
    ensures Truthy(ServerMessage(e)) ==> m == ServerMessage(e).value
    ensures !Truthy(ServerMessage(e)) && e.message != "" ==> m == e.message
    ensures !Truthy(ServerMessage(e)) && e.message == "" ==> m == DefaultRegisterError
  {
    MessageOr(e, OrElse(e.message, DefaultRegisterError))
  }

  /** `authService.login`: the response is returned as it came, and its token is stored in
      the `token` slot only when it is non-empty; a failure throws with the server's message
      or the default and leaves storage alone. */
  method AuthLogin(storage: LocalStorage, reply: Reply<LoginResponse>)
    returns (r: Result<LoginResponse, string>)
    modifies storage
    ensures reply.Ok? ==> r == Success(reply.value)
    ensures reply.Ok? && reply.value.token != "" ==>
      storage.items == old(storage.items)[TokenKey := reply.value.token]
    ensures !(reply.Ok? && reply.value.token != "") ==> storage.items == old(storage.items)
    ensures reply.Err? ==> r == Failure(LoginErrorMessage(reply.error))
  {
    if reply.Err? {
      return Failure(LoginErrorMessage(reply.error));
    }
    if reply.value.token != "" {
      storage.SetItem(TokenKey, reply.value.token);
    }
    r := Success(reply.value);
  }

  /** `authService.register`: posts the restaurant as given, then yields the restaurant
      inside the response, or the message chain. */
  method AuthRegister(restaurant: Restaurants.Restaurant, reply: Reply<RegisterResponse>)
    returns (call: Call<Restaurants.Restaurant>, r: Result<Restaurants.Restaurant, string>)
    ensures call == Create(restaurant)
    ensures reply.Ok? ==> r == Success(reply.value.restaurant)
    ensures reply.Err? ==> r == Failure(RegisterErrorMessage(reply.error))
    ensures r.Failure? ==> r.error != ""
  {
    call := Create(restaurant);
    if reply.Err? {
      return call, Failure(RegisterErrorMessage(reply.error));
    }
    r := Success(reply.value.restaurant);
  }

  /** `authService.isAuthenticated`: a non-empty token in the `token` slot. */
  predicate IsAuthenticated(storage: LocalStorage)
    reads storage
    ensures IsAuthenticated(storage) <==> TokenKey in storage.items && storage.items[TokenKey] != ""
  {
    Truthy(storage.GetItem(TokenKey))
  }

  /** `authService.logout`: only the `token` slot goes, and with it the signed-in state. */
  method AuthLogout(storage: LocalStorage)
    modifies storage
    ensures storage.items == old(storage.items) - {TokenKey}
    ensures !IsAuthenticated(storage)
  {
    storage.RemoveItem(TokenKey);
  }

  /** A login whose response carries a non-empty token makes the service signed in, and
      logging out afterwards signs it out again. */
  method LoginThenLogout(storage: LocalStorage, response: LoginResponse)
    returns (afterLogin: bool, afterLogout: bool)
    requires response.token != ""
    modifies storage
    ensures afterLogin && !afterLogout
  {
    var r := AuthLogin(storage, Ok(response));
    afterLogin := IsAuthenticated(storage);
    AuthLogout(storage);
    afterLogout := IsAuthenticated(storage);
  }

  /** A 401 seen by the first response step signs the service out but leaves the session
      store's `auth_token` where it was. */
  method UnauthorizedKeepsSessionToken<T>(storage: LocalStorage, e: HttpError)
    returns (outcome: Result<T, NormalizedError>, navigateTo: Option<string>)
    requires Unauthorized(e)
    modifies storage
    ensures !IsAuthenticated(storage)
    ensures storage.GetItem(ApiConfig.AuthTokenKey) == old(storage.GetItem(ApiConfig.AuthTokenKey))
    ensures navigateTo == Some(LoginPage)
  {
    outcome, navigateTo := HandleResponse<T>(Err(e), storage);
  }
}
