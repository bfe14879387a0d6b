/**
 * The browser and library primitives the token layer calls but does not implement:
 * `window.location`, `navigator.userAgent`, `btoa`/`atob`, `jwtDecode` and `JSON.parse`.
 * They are fields of a `Platform` value; `Base64Laws` is what the codec proofs assume of them.
 */
module Browser {
  import opened Wrappers
  import opened JsText

  /** The claims of a decoded JWT the token layer reads: `exp`, in epoch seconds (None: absent). */
  datatype Claims = Claims(exp: Option<int>)

  /** What `JSON.parse` of a payload yields, as far as reading `.exp` from it goes. */
  datatype Json =
    | JsonNull                      // `.exp` throws a TypeError
    | JsonObject(exp: Option<int>)  // an object, with or without an `exp` member
    | JsonOther                     // a number, string, boolean or array: `.exp` is undefined

  datatype Platform = Platform(
    hostname: JsStr,
    userAgent: JsStr,
    protocol: JsStr,
    btoa: JsStr -> Option<JsStr>,        // None: the call throws InvalidCharacterError
    atob: JsStr -> Option<JsStr>,        // None: the call throws (not base64)
    jwtDecode: JsStr -> Option<Claims>,  // None: the call throws; a payload that is not an object decodes to Claims(None)
    jsonParse: JsStr -> Option<Json>)    // None: the call throws a SyntaxError

  /** Base64 as the codec relies on it: defined exactly on byte strings, ASCII output, invertible. */
  ghost predicate Base64Laws(p: Platform) {
    && (forall s :: p.btoa(s).Some? <==> Latin1(s))
    && (forall s :: p.btoa(s).Some? ==> Ascii(p.btoa(s).value))
    && (forall s :: p.btoa(s).Some? ==> (|p.btoa(s).value| == 0 <==> |s| == 0))
    && (forall s :: p.btoa(s).Some? ==> p.atob(p.btoa(s).value) == Some(s))
  }

  /** `storage.getItem(key)`: the stored string, or null. */
  function Lookup(m: map<string, JsStr>, key: string): (r: Option<JsStr>)
    ensures r.Some? <==> key in m
    ensures r.Some? ==> r.value == m[key]
  {
    if key in m then Some(m[key]) else None
  }

  const Https: JsStr := FromAscii("https:")
  const Localhost: JsStr := FromAscii("localhost")

  /** `isSecureEnvironment`: served over HTTPS, or from the local development host. */
  predicate IsSecureEnvironment(p: Platform) {
    p.protocol == Https || p.hostname == Localhost
  }

  /**
   * HTTPS is secure from any host and `localhost` over any protocol; plain HTTP from any other
   * host is not.
   */
  lemma SecureEnvironmentCases(p: Platform)
    ensures p.protocol == Https ==> IsSecureEnvironment(p)
    ensures p.hostname == Localhost ==> IsSecureEnvironment(p)
    ensures p.protocol == FromAscii("http:") && p.hostname != Localhost ==> !IsSecureEnvironment(p)
  {
    assert |FromAscii("http:")| == 5 && |Https| == 6;
  }

  /**
   * The expiry a token carries once `jwtDecode` succeeded and `!exp` is false;
   * None when decoding fails or the claim is absent or 0 (JavaScript falsiness).
   */
  function LiveExp(p: Platform, token: JsStr): (e: Option<int>)
    ensures e.Some? <==> p.jwtDecode(token).Some? && p.jwtDecode(token).value.exp.Some?
                         && p.jwtDecode(token).value.exp.value != 0
    ensures e.Some? ==> e.value != 0 && e == p.jwtDecode(token).value.exp
  {
    match p.jwtDecode(token)
    case None => None
    case Some(claims) =>
      if claims.exp.None? || claims.exp.value == 0 then None else claims.exp
  }
}
