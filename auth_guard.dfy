/**
 * `AuthGuard`: the stateless route gate. It reads localStorage's `token` and decodes the
 * payload segment itself with `atob` and `JSON.parse`, independently of the token services.
 */
module Guard {
  import opened Wrappers
  import opened JsText
  import opened Browser

  const TokenKey := "token"
  const AuthRoute := "/auth"

  datatype Decision = Allow | Redirect(route: string)

  /**
   * `isTokenExpired` of the guard: `JSON.parse(atob(token.split(".")[1])).exp < now`, and true when
   * anything throws. With no second segment the argument is `undefined`, which `atob` receives as
   * the nine-letter string "undefined" and rejects; a payload without `exp` compares as not expired.
   */
  function GuardExpired(env: Platform, token: JsStr, now: int): (r: bool)
    ensures |Split(token, Dot)| < 2 ==> r
    ensures |Split(token, Dot)| >= 2 && env.atob(Split(token, Dot)[1]).None? ==> r
    ensures |Split(token, Dot)| >= 2 && env.atob(Split(token, Dot)[1]).Some? ==>
      match env.jsonParse(env.atob(Split(token, Dot)[1]).value)
      case None => r
      case Some(JsonNull) => r
      case Some(JsonOther) => !r
      case Some(JsonObject(exp)) => r <==> exp.Some? && exp.value < now
  {
    var parts := Split(token, Dot);
    if |parts| < 2 then true
    else
      match env.atob(parts[1])
      case None => true
      case Some(payload) =>
        match env.jsonParse(payload)
        case None => true
        case Some(JsonNull) => true
        case Some(JsonOther) => false
        case Some(JsonObject(exp)) => exp.Some? && exp.value < now
  }

  /** `canActivate`: allow exactly a present, non-expired token; otherwise redirect to `/auth`. */
  function CanActivate(env: Platform, storage: map<string, JsStr>, now: int): (d: Decision)
    ensures d == Allow || d == Redirect(AuthRoute)
    ensures d == Allow <==> TokenKey in storage && |storage[TokenKey]| > 0 && !GuardExpired(env, storage[TokenKey], now)
  {
    var token := if TokenKey in storage then Some(storage[TokenKey]) else None;
    if !Truthy(token) || GuardExpired(env, token.value, now) then Redirect(AuthRoute)
    else if Truthy(token) then Allow
    else assert false; Redirect(AuthRoute)
  }

  /** A token whose payload decodes to an object without `exp` is let through. */
  lemma NoExpIsAllowed(env: Platform, storage: map<string, JsStr>, now: int)
    requires TokenKey in storage && |storage[TokenKey]| > 0
    requires |Split(storage[TokenKey], Dot)| >= 2
    requires env.atob(Split(storage[TokenKey], Dot)[1]).Some?
    requires env.jsonParse(env.atob(Split(storage[TokenKey], Dot)[1]).value) == Some(JsonObject(None))
    ensures CanActivate(env, storage, now) == Allow
  {
  }

  /** A token without a dot never passes the guard. */
  lemma {:induction false} NoDotIsRedirected(env: Platform, storage: map<string, JsStr>, now: int)
    requires TokenKey in storage && Occurrences(storage[TokenKey], Dot) == 0
    ensures CanActivate(env, storage, now) == Redirect(AuthRoute)
  {
    SplitLength(storage[TokenKey], Dot);
  }
}
