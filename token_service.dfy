/**
 * `TokenService`: the access and refresh tokens kept in localStorage under `token` and
 * `refreshToken`, mirrored by two subjects, with its own JWT shape check and expiry helpers.
 */
module Tokens {
  import opened Wrappers
  import opened JsText
  import opened Browser
  import Security

  const TokenKey := "token"
  const RefreshTokenKey := "refreshToken"
  /** "Expiring soon" window: 5 * 60 seconds. */
  const SoonWindow := 300

  /** `isValidJWT`: non-empty, `split('.')` gives exactly three parts, and `jwtDecode` does not throw. */
  predicate IsValidJWT(env: Platform, token: JsStr)
    ensures IsValidJWT(env, token) ==> |token| > 0 && env.jwtDecode(token).Some?
    ensures |token| > 0 && |Split(token, Dot)| == 3 && env.jwtDecode(token).Some? ==> IsValidJWT(env, token)
  {
    if |token| == 0 then false
    else if |Split(token, Dot)| != 3 then false
    else env.jwtDecode(token).Some?
  }

  /** A valid token is non-empty, has exactly two dots, and decodes. */
  lemma {:induction false} ValidJWTShape(env: Platform, token: JsStr)
    ensures IsValidJWT(env, token) <==> |token| > 0 && Occurrences(token, Dot) == 2 && env.jwtDecode(token).Some?
  {
    SplitLength(token, Dot);
  }

  /** `isTokenExpired`: invalid tokens and tokens without a truthy `exp` are expired; otherwise `exp < now`. */
  function IsTokenExpired(env: Platform, token: JsStr, now: int): (r: bool)
    ensures !IsValidJWT(env, token) ==> r
    ensures IsValidJWT(env, token) ==> (r <==> LiveExp(env, token).None? || LiveExp(env, token).value < now)
  {
    if !IsValidJWT(env, token) then true
    else
      match env.jwtDecode(token)
      case None => true
      case Some(claims) =>
        if claims.exp.None? || claims.exp.value == 0 then true
        else claims.exp.value < now
  }

  /** `isTokenExpiringSoon` on the current token. */
  function ExpiringSoon(env: Platform, token: Option<JsStr>, now: int): (r: bool)
    ensures r <==> !Truthy(token) || !IsValidJWT(env, token.value)
                   || LiveExp(env, token.value).None? || LiveExp(env, token.value).value - now < SoonWindow
  {
    if !Truthy(token) || !IsValidJWT(env, token.value) then true
    else
      match env.jwtDecode(token.value)
      case None => true
      case Some(claims) =>
        if claims.exp.None? || claims.exp.value == 0 then true
        else claims.exp.value - now < SoonWindow
  }

  /** `getTokenTimeRemaining` on the current token, in seconds. */
  function TimeRemaining(env: Platform, token: Option<JsStr>, now: int): (r: int)
    ensures r >= 0
    ensures !Truthy(token) || !IsValidJWT(env, token.value) || LiveExp(env, token.value).None? ==> r == 0
    ensures Truthy(token) && IsValidJWT(env, token.value) && LiveExp(env, token.value).Some? ==>
      r >= LiveExp(env, token.value).value - now
    ensures r > 0 ==> r == LiveExp(env, token.value).value - now
  {
    if !Truthy(token) || !IsValidJWT(env, token.value) then 0
    else
      match env.jwtDecode(token.value)
      case None => 0
      case Some(claims) =>
        if claims.exp.None? || claims.exp.value == 0 then 0
        else if claims.exp.value - now > 0 then claims.exp.value - now else 0
  }

  /** Not expiring soon exactly when at least five minutes remain. */
  lemma NotExpiringSoonIffTimeLeft(env: Platform, token: Option<JsStr>, now: int)
    ensures !ExpiringSoon(env, token, now) <==> TimeRemaining(env, token, now) >= SoonWindow
  {
  }

  /** A token with time left is valid and not expired. */
  lemma TimeLeftMeansLive(env: Platform, token: Option<JsStr>, now: int)
    ensures TimeRemaining(env, token, now) > 0 ==>
      Truthy(token) && IsValidJWT(env, token.value) && !IsTokenExpired(env, token.value, now)
  {
  }

  /** localStorage and the last values published on the two subjects. */
  datatype LocalState = LocalState(
    storage: map<string, JsStr>,
    tokenSubject: Option<JsStr>,
    refreshTokenSubject: Option<JsStr>)

  /** The subjects seeded by the constructor from what localStorage holds. */
  function Initial(env: Platform, storage: map<string, JsStr>): (s: LocalState)
    ensures s.storage == storage
    ensures s.tokenSubject.Some? <==>
      Truthy(Lookup(storage, TokenKey)) && IsValidJWT(env, storage[TokenKey])
    ensures s.tokenSubject.Some? ==> s.tokenSubject == Lookup(storage, TokenKey)
    ensures s.refreshTokenSubject == (if Truthy(Lookup(storage, RefreshTokenKey)) then Lookup(storage, RefreshTokenKey) else None)
  {
    var token := Lookup(storage, TokenKey);
    var refreshToken := Lookup(storage, RefreshTokenKey);
    var tokenSubject := if Truthy(token) && IsValidJWT(env, token.value) then token else None;
    var refreshTokenSubject := if Truthy(refreshToken) then refreshToken else None;
    LocalState(storage, tokenSubject, refreshTokenSubject)
  }

  /** `getToken`: the subject's value when truthy, otherwise whatever localStorage holds. */
  function CurrentToken(s: LocalState): Option<JsStr> {
    if Truthy(s.tokenSubject) then s.tokenSubject else Lookup(s.storage, TokenKey)
  }

  /** `getRefreshToken`: the same fallback for the refresh token. */
  function CurrentRefreshToken(s: LocalState): Option<JsStr> {
    if Truthy(s.refreshTokenSubject) then s.refreshTokenSubject else Lookup(s.storage, RefreshTokenKey)
  }

  /** `setToken`: an invalid token changes nothing; a valid one is stored and published. */
  function WithToken(env: Platform, s: LocalState, token: JsStr): (r: LocalState)
    ensures !IsValidJWT(env, token) ==> r == s
    ensures IsValidJWT(env, token) ==>
      r.storage == s.storage[TokenKey := token] && r.tokenSubject == Some(token)
      && r.refreshTokenSubject == s.refreshTokenSubject
  {
    if !IsValidJWT(env, token) then s
    else s.(storage := s.storage[TokenKey := token], tokenSubject := Some(token))
  }

  /** `setRefreshToken`: stored and published with no check. */
  function WithRefreshToken(s: LocalState, refreshToken: JsStr): (r: LocalState)
    ensures CurrentRefreshToken(r) == Some(refreshToken) && r.refreshTokenSubject == Some(refreshToken)
    ensures r.storage == s.storage[RefreshTokenKey := refreshToken] && r.tokenSubject == s.tokenSubject
  {
    s.(storage := s.storage[RefreshTokenKey := refreshToken], refreshTokenSubject := Some(refreshToken))
  }

  /** `clearTokens`: both keys removed, both subjects set to null; other keys kept. */
  function Cleared(s: LocalState): (r: LocalState)
    ensures CurrentToken(r).None? && CurrentRefreshToken(r).None?
    ensures r.tokenSubject.None? && r.refreshTokenSubject.None?
    ensures forall k :: k in r.storage <==> k in s.storage && k != TokenKey && k != RefreshTokenKey
    ensures forall k :: k in r.storage ==> r.storage[k] == s.storage[k]
  {
    LocalState(s.storage - {TokenKey, RefreshTokenKey}, None, None)
  }

  lemma ClearedIdempotent(s: LocalState)
    ensures Cleared(Cleared(s)) == Cleared(s)
  {
  }

  /** Storing a valid token makes it the current token. */
  lemma SetThenGet(env: Platform, s: LocalState, token: JsStr)
    requires IsValidJWT(env, token)
    ensures CurrentToken(WithToken(env, s, token)) == Some(token)
  {
  }

  /** localStorage's `token` entry, if any, passed `isValidJWT`. */
  predicate StoredTokenValid(env: Platform, s: LocalState) {
    TokenKey in s.storage ==> IsValidJWT(env, s.storage[TokenKey])
  }

  /** The setters and `clearTokens` never put an invalid token into localStorage. */
  lemma WritesKeepStoredTokenValid(env: Platform, s: LocalState, token: JsStr, refreshToken: JsStr)
    requires StoredTokenValid(env, s)
    ensures StoredTokenValid(env, WithToken(env, s, token))
    ensures StoredTokenValid(env, WithRefreshToken(s, refreshToken))
    ensures StoredTokenValid(env, Cleared(s))
  {
  }

  class TokenService {
    const env: Platform
    var storage: map<string, JsStr>
    var tokenSubject: Option<JsStr>
    var refreshTokenSubject: Option<JsStr>

    function State(): LocalState
      reads this
    {
      LocalState(storage, tokenSubject, refreshTokenSubject)
    }

    /** The service over the localStorage found at start-up. */
    constructor(env: Platform, storage: map<string, JsStr>)
      ensures this.env == env
      ensures State() == Initial(env, storage)
    {
      this.env := env;
      this.storage := storage;
      var token := Lookup(storage, TokenKey);
      var refreshToken := Lookup(storage, RefreshTokenKey);
      tokenSubject := None;
      refreshTokenSubject := None;
      if Truthy(token) && IsValidJWT(env, token.value) {
        tokenSubject := token;
      }
      if Truthy(refreshToken) {
        refreshTokenSubject := refreshToken;
      }
    }

    function GetToken(): (token: Option<JsStr>)
      reads this
      ensures Truthy(tokenSubject) ==> token == tokenSubject
      ensures !Truthy(tokenSubject) ==> token == Lookup(storage, TokenKey)
    {
      CurrentToken(State())
    }

    function GetRefreshToken(): (refreshToken: Option<JsStr>)
      reads this
      ensures Truthy(refreshTokenSubject) ==> refreshToken == refreshTokenSubject
      ensures !Truthy(refreshTokenSubject) ==> refreshToken == Lookup(storage, RefreshTokenKey)
    {
      CurrentRefreshToken(State())
    }

    method SetToken(token: JsStr)
      modifies this
      ensures State() == WithToken(env, old(State()), token)
    {
      if !IsValidJWT(env, token) {
        return;
      }
      storage := storage[TokenKey := token];
      tokenSubject := Some(token);
    }

    method SetRefreshToken(refreshToken: JsStr)
      modifies this
      ensures State() == WithRefreshToken(old(State()), refreshToken)
    {
      storage := storage[RefreshTokenKey := refreshToken];
      refreshTokenSubject := Some(refreshToken);
    }

    method ClearTokens()
      modifies this
      ensures State() == Cleared(old(State()))
    {
      storage := storage - {TokenKey, RefreshTokenKey};
      tokenSubject := None;
      refreshTokenSubject := None;
    }

    /** `isTokenValid`: a current token that is a valid JWT and not expired. */
    function IsTokenValid(now: int): (valid: bool)
      reads this
      ensures valid <==> (Truthy(GetToken()) && IsValidJWT(env, GetToken().value)
                          && LiveExp(env, GetToken().value).Some? && LiveExp(env, GetToken().value).value >= now)
    {
      var token := GetToken();
      if !Truthy(token) then false
      else IsValidJWT(env, token.value) && !IsTokenExpired(env, token.value, now)
    }

    function IsTokenExpiringSoon(now: int): (soon: bool)
      reads this
      ensures soon == ExpiringSoon(env, GetToken(), now)
    {
      ExpiringSoon(env, GetToken(), now)
    }

    function GetTokenTimeRemaining(now: int): (seconds: int)
      reads this
      ensures seconds == TimeRemaining(env, GetToken(), now)
    {
      TimeRemaining(env, GetToken(), now)
    }

    /**
     * `logoutOnExpiration`: without a valid current token everything is cleared now; otherwise a
     * logout timer is armed for the time remaining, only when some remains.
     */
    method LogoutOnExpiration(now: int) returns (plan: Security.LogoutPlan)
      modifies this
      ensures var token := old(GetToken());
        !(Truthy(token) && IsValidJWT(env, token.value)) ==> plan == Security.ClearedNow && State() == Cleared(old(State()))
      ensures var token := old(GetToken());
        Truthy(token) && IsValidJWT(env, token.value) ==>
          State() == old(State()) && (plan.LogoutTimer? <==> TimeRemaining(env, token, now) > 0)
          && (plan.LogoutTimer? ==> plan.delaySeconds == LiveExp(env, token.value).value - now)
    {
      var token := GetToken();
      if !Truthy(token) || !IsValidJWT(env, token.value) {
        ClearTokens();
        return Security.ClearedNow;
      }
      var left := GetTokenTimeRemaining(now);
      plan := Security.LogoutDecision(left);
    }
  }
}
