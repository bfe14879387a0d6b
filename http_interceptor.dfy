/**
 * `AuthInterceptor`: every outgoing request passes the security checks; only a request made
 * with a readable, unexpired token gets `Authorization: Bearer <token>` and the 401/403 handler.
 */
module Interceptor {
  import opened Wrappers
  import opened JsText
  import opened Browser
  import opened Security

  const AuthorizationHeader := "Authorization"
  const BearerPrefix: JsStr := FromAscii("Bearer ")

  datatype Request = Request(url: string, headers: map<string, JsStr>)

  /**
   * The request handed to `next.handle`, whether the `catchError` stage that reacts to 401/403
   * is attached, and the security service's storage afterwards.
   */
  datatype Forward = Forward(request: Request, guarded: bool, after: Store)

  /** `req.clone({ setHeaders: { Authorization: ... } })`: that header set, the rest kept. */
  function WithBearer(req: Request, token: JsStr): (r: Request)
    ensures r.url == req.url
    ensures AuthorizationHeader in r.headers && r.headers[AuthorizationHeader] == BearerPrefix + token
    ensures forall h :: h != AuthorizationHeader ==> (h in r.headers <==> h in req.headers)
    ensures forall h :: h != AuthorizationHeader && h in req.headers ==> r.headers[h] == req.headers[h]
  {
    req.(headers := req.headers[AuthorizationHeader := BearerPrefix + token])
  }

  /**
   * `intercept`: suspicious activity or an insecure environment clear the tokens and forward the
   * request as is; no token forwards it as is; an invalid or expired token clears and forwards it
   * as is; otherwise the bearer header is added.
   */
  function Intercepted(env: Platform, s: Store, req: Request, now: int): (r: Forward)
    ensures !r.guarded ==> r.request == req
    ensures r.guarded ==> r.after == s && r.request.url == req.url && AuthorizationHeader in r.request.headers
  {
    var check := SuspiciousActivity(env, s);
    if check.result then Forward(req, false, Cleared(check.after))
    else if !IsSecureEnvironment(env) then Forward(req, false, Cleared(check.after))
    else
      var read := ReadToken(env, check.after);
      if !Truthy(read.token) then Forward(req, false, read.after)
      else if !IsValidJWT(read.token.value) then Forward(req, false, Cleared(read.after))
      else if IsTokenExpired(env, read.token.value, now) then Forward(req, false, Cleared(read.after))
      else Forward(WithBearer(req, read.token.value), true, read.after)
  }

  /** The bearer header is attached exactly for a secure environment with a readable token that has not expired. */
  lemma {:induction false} BearerIffLiveToken(env: Platform, s: Store, req: Request, now: int)
    ensures var r := Intercepted(env, s, req, now);
      r.guarded <==> IsSecureEnvironment(env) && Truthy(ReadToken(env, s).token)
                     && !IsTokenExpired(env, ReadToken(env, s).token.value, now)
    ensures var r := Intercepted(env, s, req, now);
      r.guarded ==> r.request == WithBearer(req, ReadToken(env, s).token.value)
  {
    ReadTokenIdempotent(env, s);
  }

  /** An insecure environment or an expired token leaves no token behind. */
  lemma RefusalClears(env: Platform, s: Store, req: Request, now: int)
    ensures var r := Intercepted(env, s, req, now);
      !IsSecureEnvironment(env) || (Truthy(ReadToken(env, s).token) && IsTokenExpired(env, ReadToken(env, s).token.value, now))
      ==> TokenKey !in r.after.session && RefreshTokenKey !in r.after.session
  {
  }

  /** Without a stored token the request goes out untouched and nothing is cleared. */
  lemma NoTokenPassesThrough(env: Platform, s: Store, req: Request, now: int)
    requires IsSecureEnvironment(env)
    requires !Truthy(Lookup(s.session, TokenKey))
    ensures Intercepted(env, s, req, now) == Forward(req, false, s)
  {
  }

  /** The `catchError` stage: 401 and 403 clear the tokens; the error is rethrown either way. */
  function AfterHttpError(s: Store, status: int): (r: Store)
    ensures status == 401 || status == 403 ==> r == Cleared(s)
    ensures status != 401 && status != 403 ==> r == s
  {
    if status == 401 then Cleared(s)
    else if status == 403 then Cleared(s)
    else s
  }

  class AuthInterceptor {
    const security: SecurityService

    constructor(security: SecurityService)
      ensures this.security == security
    {
      this.security := security;
    }

    method Intercept(req: Request, now: int) returns (forwarded: Request, guarded: bool)
      modifies security
      ensures Forward(forwarded, guarded, security.State()) == Intercepted(security.env, old(security.State()), req, now)
    {
      var suspicious := security.DetectSuspiciousActivity();
      if suspicious {
        security.ClearAllTokens();
        return req, false;
      }
      if !security.IsSecure() {
        // `detectSuspiciousActivity` already answered `!isSecureEnvironment()`
        assert false;
      }
      var token := security.GetSecureToken();
      if !Truthy(token) {
        return req, false;
      }
      if !IsValidJWT(token.value) {
        // `isValidJWT` accepts every token
        assert false;
      }
      if IsTokenExpired(security.env, token.value, now) {
        security.ClearAllTokens();
        return req, false;
      }
      forwarded := WithBearer(req, token.value);
      guarded := true;
    }

    /** The error handler attached to a request that carried the bearer header. */
    method HandleResponseError(status: int)
      modifies security
      ensures security.State() == AfterHttpError(old(security.State()), status)
    {
      if status == 401 {
        security.ClearAllTokens();
      } else if status == 403 {
        security.ClearAllTokens();
      }
    }
  }
}
