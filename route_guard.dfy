/** The edge middleware that guards navigation. It reads only whether the `token` cookie
    is present, and the request path, and either lets the request through or redirects it. */
module RouteGuard {
  import opened Common

  /** The cookie the guard reads. It is a third token slot, distinct from the two
      `localStorage` keys the session store and the HTTP client use. */
  const TokenCookie: string := "token"

  const LoginPath: string := "/auth/login"
  const DashboardPath: string := "/dashboard"
  const RegisterPath: string := "/auth/register"
  const AuthPrefix: string := "/auth"

  datatype Decision = Next | Redirect(target: string)

  /** `s.startsWith(prefix)`. */
  predicate StartsWith(s: string, prefix: string) {
    prefix <= s
  }

  /** The routing decision for one request, given the request's cookies. */
  function Middleware(cookies: map<string, string>, path: string): (d: Decision)
    ensures path == RegisterPath ==> d == Next
    ensures d.Redirect? ==>
      (d.target == LoginPath && TokenCookie !in cookies && StartsWith(path, DashboardPath))
      || (d.target == DashboardPath && TokenCookie in cookies && StartsWith(path, AuthPrefix))
  {
    var hasToken := TokenCookie in cookies;
    var isAuthPage := StartsWith(path, AuthPrefix);
    var isDashboardPage := StartsWith(path, DashboardPath);
    var isRegisterPage := path == RegisterPath;
    if isRegisterPage then Next
    else if !hasToken && isDashboardPage then Redirect(LoginPath)
    else if hasToken && isAuthPage && !isRegisterPage then Redirect(DashboardPath)
    else Next
  }

  /** The `config.matcher` patterns `/dashboard/:path*` and `/auth/:path*`: the prefix itself,
      or the prefix followed by further path segments. */
  predicate Matched(path: string)
    ensures Matched(path) ==> StartsWith(path, DashboardPath) || StartsWith(path, AuthPrefix)
  {
    path == DashboardPath || StartsWith(path, DashboardPath + "/")
    || path == AuthPrefix || StartsWith(path, AuthPrefix + "/")
  }

  /** What a request gets: the middleware runs only on matched paths; every other path is
      served as requested. */
  function Route(cookies: map<string, string>, path: string): (d: Decision)
    ensures !Matched(path) ==> d == Next
    ensures Matched(path) ==> d == Middleware(cookies, path)
  {
    if Matched(path) then Middleware(cookies, path) else Next
  }

  /** The registration page is reachable with or without a token. */
  lemma RegisterAlwaysPasses(cookies: map<string, string>)
    ensures Middleware(cookies, RegisterPath) == Next
    ensures Route(cookies, RegisterPath) == Next
  {
  }

  /** Without a token, every dashboard path is sent to the login page. */
  lemma NoTokenDashboardRedirects(cookies: map<string, string>, path: string)
    requires TokenCookie !in cookies
    requires StartsWith(path, DashboardPath)
    ensures Middleware(cookies, path) == Redirect(LoginPath)
  {
    assert path != RegisterPath by {
      assert RegisterPath[1] != DashboardPath[1];
    }
  }

  /** With a token, every auth path other than registration is sent to the dashboard. */
  lemma TokenAuthRedirects(cookies: map<string, string>, path: string)
    requires TokenCookie in cookies
    requires StartsWith(path, AuthPrefix) && path != RegisterPath
    ensures Middleware(cookies, path) == Redirect(DashboardPath)
  {
  }

  /** The middleware redirects in exactly the two cases above; everything else passes. */
  lemma RedirectCases(cookies: map<string, string>, path: string)
    ensures Middleware(cookies, path).Redirect? <==>
      path != RegisterPath &&
      ((TokenCookie !in cookies && StartsWith(path, DashboardPath)) ||
       (TokenCookie in cookies && StartsWith(path, AuthPrefix)))
  {
  }

  /** No redirect loop: the target of a redirect is itself guarded, and with the same cookies
      the guard lets it through. */
  lemma {:induction false} NoRedirectLoop(cookies: map<string, string>, path: string)
    requires Middleware(cookies, path).Redirect?
    ensures Matched(Middleware(cookies, path).target)
    ensures Middleware(cookies, Middleware(cookies, path).target) == Next
  {
    var t := Middleware(cookies, path).target;
    if TokenCookie in cookies {
      assert t == DashboardPath;
      assert !StartsWith(DashboardPath, AuthPrefix) by {
        assert DashboardPath[1] != AuthPrefix[1];
      }
    } else {
      assert t == LoginPath;
      assert !StartsWith(LoginPath, DashboardPath) by {
        assert LoginPath[1] != DashboardPath[1];
      }
      assert StartsWith(LoginPath, AuthPrefix + "/");
    }
  }

  /** Only whether the cookie is present matters, never its value or any other cookie. */
  lemma OnlyPresenceMatters(c1: map<string, string>, c2: map<string, string>, path: string)
    requires (TokenCookie in c1) == (TokenCookie in c2)
    ensures Middleware(c1, path) == Middleware(c2, path)
    ensures Route(c1, path) == Route(c2, path)
  {
  }

  /** A path such as `/authors` starts with `/auth` but is outside the matcher, so the guard
      never runs on it even though the middleware alone would redirect it. */
  lemma MatcherNarrowerThanPrefix(cookies: map<string, string>)
    requires TokenCookie in cookies
    ensures Middleware(cookies, "/authors") == Redirect(DashboardPath)
    ensures Route(cookies, "/authors") == Next
  {
    assert StartsWith("/authors", AuthPrefix);
    assert "/authors" != RegisterPath by {
      assert |"/authors"| != |RegisterPath|;
    }
    assert !StartsWith("/authors", DashboardPath) by {
      assert "/authors"[1] != DashboardPath[1];
    }
    assert !StartsWith("/authors", AuthPrefix + "/") by {
      assert "/authors"[5] != (AuthPrefix + "/")[5];
    }
    assert !StartsWith("/authors", DashboardPath + "/") by {
      assert "/authors"[1] != (DashboardPath + "/")[1];
    }
  }

  /** An unauthenticated visit to `/dashboard/orders` is redirected once, to the login page. */
  lemma UnauthenticatedOrdersScenario()
    ensures Route(map[], "/dashboard/orders") == Redirect(LoginPath)
  {
  }
}
