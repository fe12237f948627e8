/** The generated REST client's global configuration (`OpenAPI.TOKEN`, `OpenAPI.BASE`)
    and the three functions that set it. */
module ApiConfig {
  import opened Common
  import opened Storage

  /** The fixed server the client is pointed at on start-up. */
  const ServerUrl: string := "http://192.168.0.127:3001"

  /** The storage key the start-up code reads the token from (the session store's key). */
  const AuthTokenKey: string := "auth_token"

  /** The global client configuration: the bearer token sent with every generated call
      (`None` is `undefined`) and the base URL. */
  class OpenApi {
    var token: Option<string>
    var base: string

    constructor (token: Option<string>, base: string)
      ensures this.token == token && this.base == base
    {
      this.token := token;
      this.base := base;
    }

    /** A non-empty token becomes the global token; `null` or "" clears it. */
    method SetAuthToken(t: Option<string>)
      modifies this`token
      ensures Truthy(t) ==> token == t
      ensures !Truthy(t) ==> token == None
    {
      if Truthy(t) {
        token := t;
      } else {
        token := None;
      }
    }

    method SetBaseUrl(url: string)
      modifies this`base
      ensures base == url
    {
      base := url;
    }

    /** Points the client at the fixed server and, in a browser, adopts a non-empty stored
        `auth_token`; otherwise the global token is left as it was. */
    method InitApiConfig(storage: LocalStorage, inBrowser: bool)
      modifies this
      ensures base == ServerUrl
      ensures var stored := old(storage.GetItem(AuthTokenKey));
        token == if inBrowser && Truthy(stored) then stored else old(token)
    {
      SetBaseUrl(ServerUrl);
      if inBrowser {
        var stored := storage.GetItem(AuthTokenKey);
        if Truthy(stored) {
          SetAuthToken(stored);
        }
      }
    }
  }
}
